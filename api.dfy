/**
 * The HTTP layer of the review service: the server-sent-event framing, the
 * code taken from a request (its `code`, else a fenced block of its chat
 * messages), the request guard and the initial graph state of `/explain`,
 * the paragraphs the final report is streamed in, the fixed tail of the
 * stream, the agents of `/explain/upload`, and the older plain-text
 * `/explain` endpoint. The streaming generators themselves are not part of
 * this model; only the rules their helpers follow are.
 */
module Api {
  import opened Wrappers
  import opened State
  import Text
  import Encoding

  // ---------------------------------------------------------------------------
  // Server-sent events
  // ---------------------------------------------------------------------------

  const DataPrefix := "data: "

  /** Every line prefixed with "data: ". */
  function DataLines(lines: seq<string>): (r: seq<string>)
    ensures |r| == |lines| && forall i :: 0 <= i < |lines| ==> r[i] == DataPrefix + lines[i]
  {
    if lines == [] then [] else [DataPrefix + lines[0]] + DataLines(lines[1..])
  }

  /** What follows the "data: " prefix of each event line. */
  function Payloads(lines: seq<string>): (r: seq<string>)
    ensures |r| == |lines|
    ensures forall i :: 0 <= i < |lines| ==> r[i] == if Text.StartsWith(lines[i], DataPrefix) then lines[i][|DataPrefix|..] else lines[i]
  {
    if lines == [] then []
    else [if Text.StartsWith(lines[0], DataPrefix) then lines[0][|DataPrefix|..] else lines[0]] + Payloads(lines[1..])
  }

  /** `sse(data)`: trailing newlines dropped, each line framed as "data: …", a blank line closing the event. */
  function Sse(data: string): string {
    Text.Join(DataLines(Text.Split(Text.RStripChar(data, '\n'), "\n")), "\n") + "\n\n"
  }

  lemma NoNewlineInPieces(t: string)
    ensures forall k :: 0 <= k < |Text.Split(t, "\n")| ==> '\n' !in Text.Split(t, "\n")[k]
  {
    Text.SplitPiecesFree(t, "\n");
    forall k | 0 <= k < |Text.Split(t, "\n")| ensures '\n' !in Text.Split(t, "\n")[k] {
      var p := Text.Split(t, "\n")[k];
      if '\n' in p {
        var j :| 0 <= j < |p| && p[j] == '\n';
        assert p[j..j + 1] == "\n";
        assert Text.OccursAt(p, "\n", j);
      }
    }
  }

  /**
   * An event ends with a blank line, and its lines are the data lines of the
   * payload: dropping their prefixes and joining them gives back the
   * payload without its trailing newlines.
   */
  lemma SseDecode(data: string)
    ensures var e := Sse(data);
            Text.EndsWith(e, "\n\n")
            && Text.Split(e[..|e| - 2], "\n") == DataLines(Text.Split(Text.RStripChar(data, '\n'), "\n"))
            && Text.Join(Payloads(Text.Split(e[..|e| - 2], "\n")), "\n") == Text.RStripChar(data, '\n')
  {
    var t := Text.RStripChar(data, '\n');
    var pieces := Text.Split(t, "\n");
    var lines := DataLines(pieces);
    var e := Sse(data);
    assert e[..|e| - 2] == Text.Join(lines, "\n");
    NoNewlineInPieces(t);
    forall k | 0 <= k < |lines| ensures '\n' !in lines[k] {
      assert lines[k] == DataPrefix + pieces[k];
    }
    Text.SplitJoinChar(lines, '\n');
    forall k | 0 <= k < |lines| ensures Payloads(lines)[k] == pieces[k] {
      Text.StartsWithConcat(DataPrefix, pieces[k]);
      assert (DataPrefix + pieces[k])[|DataPrefix|..] == pieces[k];
    }
    assert Payloads(lines) == pieces;
    Text.JoinSplit(t, "\n");
  }

  // ---------------------------------------------------------------------------
  // Fenced code blocks in chat messages
  // ---------------------------------------------------------------------------

  const Fence := "```"

  /** A character of the optional language tag after an opening fence: `[a-zA-Z0-9_\-]`. */
  predicate LangChar(c: char) {
    'a' <= c <= 'z' || 'A' <= c <= 'Z' || '0' <= c <= '9' || c == '_' || c == '-'
  }

  /** The end of the language tag that starts at `j`. */
  function LangEnd(s: string, j: nat): (r: nat)
    requires j <= |s|
    decreases |s| - j
    ensures j <= r <= |s|
    ensures forall k :: j <= k < r ==> LangChar(s[k])
    ensures r < |s| ==> !LangChar(s[r])
  {
    if j < |s| && LangChar(s[j]) then LangEnd(s, j + 1) else j
  }

  /**
   * The body of a fenced block opening at `i`: "```", a language tag, a
   * newline, then everything up to the nearest closing "```" (the lazy
   * group of the pattern). The tag cannot end in a newline, so no
   * backtracking can make a failed match succeed.
   */
  function FenceAt(s: string, i: nat): (r: Option<(nat, nat)>)
    requires i <= |s|
    ensures r.Some? ==> i + 4 <= r.value.0 <= r.value.1 && r.value.1 + 3 <= |s|
  {
    if !Text.OccursAt(s, Fence, i) then None
    else
      var j := LangEnd(s, i + 3);
      if j == |s| || s[j] != '\n' then None
      else
        var k := Text.FindFrom(s, Fence, j + 1);
        if k == |s| then None else Some((j + 1, k))
  }

  /** `fence.finditer(s)` from position `i`: the bodies of the non-overlapping blocks, left to right. */
  function Blocks(s: string, i: nat): seq<string>
    requires i <= |s|
    decreases |s| - i
  {
    if i == |s| then []
    else
      match FenceAt(s, i)
      case Some((b, e)) => [s[b..e]] + Blocks(s, e + 3)
      case None => Blocks(s, i + 1)
  }

  /**
   * `b` is the body `s[x..y]` of a fenced block: an opening "```" and a
   * language tag end in the newline before `x`, and `y` is the first "```"
   * at or after `x`.
   */
  predicate FencedBody(s: string, b: string, x: int, y: int) {
    4 <= x <= y && y + 3 <= |s| && b == s[x..y] && s[x - 1] == '\n'
    && Text.OccursAt(s, Fence, y) && (forall j :: x <= j < y ==> !Text.OccursAt(s, Fence, j))
    && exists o :: 0 <= o && o + 3 <= x - 1 && Text.OccursAt(s, Fence, o)
                   && forall k :: o + 3 <= k < x - 1 ==> LangChar(s[k])
  }

  /** Every block found is the body of a fenced block of the text. */
  lemma {:induction false} BlocksAreFenced(s: string, i: nat)
    requires i <= |s|
    decreases |s| - i
    ensures forall b :: b in Blocks(s, i) ==> exists x, y :: FencedBody(s, b, x, y)
  {
    if i < |s| {
      match FenceAt(s, i)
      case Some((x, y)) =>
        BlocksAreFenced(s, y + 3);
        assert Text.OccursAt(s, Fence, i) && LangEnd(s, i + 3) == x - 1;
        assert FencedBody(s, s[x..y], x, y);
      case None =>
        BlocksAreFenced(s, i + 1);
    }
  }

  /** No fence starts at a character other than a backtick. */
  lemma NoFenceAt(s: string, j: nat)
    requires j < |s| && s[j] != '`'
    ensures !Text.OccursAt(s, Fence, j)
  {
    if j + 3 <= |s| {
      assert s[j..j + 3][0] == s[j];
    }
  }

  const OneBlock := "```py\nx = 1\n```"

  /** A message holding one tagged block yields exactly that block's body. */
  lemma OneBlockExample()
    ensures Blocks("```py\nx = 1\n```", 0) == ["x = 1\n"]
  {
    var s := OneBlock;
    OneBlockFence();
    assert |s| == 15 && Blocks(s, 15) == [];
    OneBlockBody();
    assert Blocks(s, 0) == [s[6..12]] + Blocks(s, 15);
  }

  lemma OneBlockBody()
    ensures OneBlock[6..12] == "x = 1\n"
  {
    var b := OneBlock[6..12];
    assert |b| == 6;
    assert b[0] == 'x' && b[1] == ' ' && b[2] == '=' && b[3] == ' ' && b[4] == '1' && b[5] == '\n';
  }

  /** The block opens at 0, its tag "py" ends in the newline at 5, and it closes at 12. */
  lemma OneBlockFence()
    ensures FenceAt(OneBlock, 0) == Some((6, 12))
  {
    var s := OneBlock;
    assert Text.OccursAt(s, Fence, 0);
    assert LangEnd(s, 5) == 5 && LangEnd(s, 4) == 5 && LangEnd(s, 3) == 5;
    OneBlockClose();
  }

  /** The first fence after the tag's newline is the closing one at 12. */
  lemma OneBlockClose()
    ensures Text.FindFrom(OneBlock, Fence, 6) == 12
  {
    var s := OneBlock;
    assert s[6] == 'x' && s[7] == ' ' && s[8] == '=' && s[9] == ' ' && s[10] == '1' && s[11] == '\n';
    forall j | 6 <= j < 12 ensures !Text.OccursAt(s, Fence, j) {
      NoFenceAt(s, j);
    }
    assert Text.OccursAt(s, Fence, 12);
  }

  /** The index of the first block that is not blank, or the number of blocks. */
  function FirstNonBlankIndex(bs: seq<string>): (r: nat)
    ensures r <= |bs|
    ensures forall j :: 0 <= j < r ==> Text.AllSpace(bs[j])
    ensures r < |bs| ==> !Text.AllSpace(bs[r])
  {
    if bs == [] || !Text.AllSpace(bs[0]) then 0
    else 1 + FirstNonBlankIndex(bs[1..])
  }

  /** The first block that is not blank, stripped. */
  function FirstNonBlank(bs: seq<string>): Option<string> {
    var k := FirstNonBlankIndex(bs);
    if k < |bs| then Some(Text.Strip(bs[k])) else None
  }

  /** What is found is stripped and not empty. */
  lemma FirstNonBlankStripped(bs: seq<string>)
    ensures FirstNonBlank(bs).Some? ==> Text.IsStripped(FirstNonBlank(bs).value)
  {
    var k := FirstNonBlankIndex(bs);
    if k < |bs| {
      Text.BlankIffAllSpace(bs[k]);
      Text.StripIsStripped(bs[k]);
    }
  }

  /** The code of one message: its first non-blank fenced block, stripped. */
  function FirstBlock(content: string): Option<string> {
    FirstNonBlank(Blocks(content, 0))
  }

  /** The code of each message, in order. */
  function MessageCodes(msgs: seq<HistoryMessage>): (r: seq<Option<string>>)
    ensures |r| == |msgs|
  {
    if msgs == [] then [] else MessageCodes(msgs[..|msgs| - 1]) + [FirstBlock(msgs[|msgs| - 1].content)]
  }

  /** The `j`-th entry of the codes is the code of the `j`-th message. */
  lemma {:induction false} MessageCodesAt(msgs: seq<HistoryMessage>, j: nat)
    requires j < |msgs|
    ensures MessageCodes(msgs)[j] == FirstBlock(msgs[j].content)
  {
    if j < |msgs| - 1 {
      MessageCodesAt(msgs[..|msgs| - 1], j);
    }
  }

  /** The index of the newest of the first `n` entries that holds code, or -1. */
  function NewestBelow(codes: seq<Option<string>>, n: nat): (r: int)
    requires n <= |codes|
    ensures -1 <= r < n
    ensures r >= 0 ==> codes[r].Some?
    ensures forall j :: r < j < n ==> codes[j].None?
  {
    if n == 0 then -1
    else if codes[n - 1].Some? then n - 1
    else NewestBelow(codes, n - 1)
  }

  /** The index of the newest message that holds code, or -1. */
  function NewestIndex(msgs: seq<HistoryMessage>): int {
    NewestBelow(MessageCodes(msgs), |msgs|)
  }

  /**
   * `_extract_code_from_messages`: the code of the newest message that has
   * any, else the last message stripped, else "".
   */
  function CodeFromMessages(msgs: seq<HistoryMessage>): string {
    var k := NewestIndex(msgs);
    if k >= 0 then MessageCodes(msgs)[k].value
    else if msgs == [] then []
    else Text.Strip(msgs[|msgs| - 1].content)
  }

  /** The extracted code is already stripped, and is empty only when nothing in the messages is code or text. */
  lemma CodeFromMessagesFacts(msgs: seq<HistoryMessage>)
    ensures Text.Strip(CodeFromMessages(msgs)) == CodeFromMessages(msgs)
    ensures CodeFromMessages(msgs) == [] <==>
              NewestIndex(msgs) == -1 && (msgs == [] || Text.AllSpace(msgs[|msgs| - 1].content))
  {
    var r := CodeFromMessages(msgs);
    var k := NewestIndex(msgs);
    if k >= 0 {
      MessageCodesAt(msgs, k);
      FirstNonBlankStripped(Blocks(msgs[k].content, 0));
      Text.StrippedFixed(r);
    } else if msgs != [] {
      var last := msgs[|msgs| - 1].content;
      assert r == Text.Strip(last);
      Text.StripIdempotent(last);
      Text.BlankIffAllSpace(last);
    }
  }

  /** The search over the messages, newest first, and over each one's blocks. */
  method ExtractCodeFromMessages(messages: Option<seq<HistoryMessage>>) returns (code: string)
    ensures code == CodeFromMessages(messages.GetOr([]))
  {
    var msgs := messages.GetOr([]);
    ghost var codes := MessageCodes(msgs);
    var i := |msgs|;
    while i > 0
      invariant 0 <= i <= |msgs|
      invariant forall j :: i <= j < |msgs| ==> codes[j].None?
    {
      var found := CodeOf(msgs, i - 1);
      if found.Some? {
        NewestBelowUnique(codes, |msgs|, i - 1);
        return found.value;
      }
      forall j | i - 1 <= j < |msgs| ensures codes[j].None? {
        if j == i - 1 {
          assert codes[j] == found;
        }
      }
      i := i - 1;
    }
    NewestBelowUnique(codes, |msgs|, -1);
    code := if msgs == [] then [] else Text.Strip(msgs[|msgs| - 1].content);
  }

  /** The code of the `j`-th message. */
  method CodeOf(msgs: seq<HistoryMessage>, j: nat) returns (r: Option<string>)
    requires j < |msgs|
    ensures r == MessageCodes(msgs)[j]
  {
    r := FirstBlockOf(msgs[j].content);
    MessageCodesAt(msgs, j);
  }

  /** The inner loop over one message's blocks: the first one that is not blank, stripped. */
  method FirstBlockOf(content: string) returns (r: Option<string>)
    ensures r == FirstBlock(content)
  {
    var bs := Blocks(content, 0);
    var k := 0;
    while k < |bs|
      invariant 0 <= k <= |bs|
      invariant forall j :: 0 <= j < k ==> Text.AllSpace(bs[j])
    {
      var block := Text.Strip(bs[k]);
      Text.BlankIffAllSpace(bs[k]);
      if block != [] {
        assert FirstNonBlankIndex(bs) == k;
        return Some(block);
      }
      k := k + 1;
    }
    assert FirstNonBlankIndex(bs) == |bs|;
    return None;
  }
  /** The newest entry with code is the one after which no entry has any. */
  lemma {:induction false} NewestBelowUnique(codes: seq<Option<string>>, n: nat, k: int)
    requires n <= |codes| && -1 <= k < n
    requires k >= 0 ==> codes[k].Some?
    requires forall j :: k < j < n ==> codes[j].None?
    ensures NewestBelow(codes, n) == k
  {
    if k < n - 1 {
      NewestBelowUnique(codes, n - 1, k);
    }
  }

  /** `_history_from_messages`: the last 20 messages, in order. */
  function HistoryFromMessages(messages: Option<seq<HistoryMessage>>): (r: seq<HistoryMessage>)
    ensures var m := messages.GetOr([]);
            |r| == (if |m| < 20 then |m| else 20) && r == m[|m| - |r|..]
  {
    Text.LastN(messages.GetOr([]), 20)
  }

  // ---------------------------------------------------------------------------
  // POST /explain
  // ---------------------------------------------------------------------------

  /** A raw file of a request: a path and a content. */
  datatype FileInput = FileInput(path: string, content: string)

  /** `ExplainRequest`; every field may be left out. */
  datatype ExplainRequest = ExplainRequest(
    code: Option<string>,
    messages: Option<seq<HistoryMessage>>,
    mode: Option<string>,
    agents: Option<seq<string>>,
    threadId: Option<string>,
    source: Option<string>,
    files: Option<seq<FileInput>>,
    entry: Option<string>)

  /** A plain-text answer, or a stream for the given thread over the given initial state. */
  datatype Response = Rejection(text: string) | Accepted(threadId: string, state: ReviewState)

  /** `_extract_code`: the request's own code when it is non-empty, else the code of its messages. */
  function RequestCode(req: ExplainRequest): (r: string)
    ensures req.code.GetOr("") != [] ==> r == req.code.value
  {
    if req.code.GetOr("") != [] then req.code.value else CodeFromMessages(req.messages.GetOr([]))
  }

  /** The code is empty exactly when none is given and the messages hold neither code nor text. */
  lemma RequestCodeEmpty(req: ExplainRequest)
    ensures var msgs := req.messages.GetOr([]);
            RequestCode(req) == [] <==>
              req.code.GetOr("") == [] && NewestIndex(msgs) == -1 && (msgs == [] || Text.AllSpace(msgs[|msgs| - 1].content))
  {
    CodeFromMessagesFacts(req.messages.GetOr([]));
  }

  /** `_extract_code` */
  method ExtractCode(req: ExplainRequest) returns (code: string)
    ensures code == RequestCode(req)
  {
    if req.code.GetOr("") != [] {
      code := req.code.value;
    } else {
      code := ExtractCodeFromMessages(req.messages);
    }
  }

  const RejectMessage := "Please provide code, files, or a folder path to analyze.\n"

  /** Nothing to analyze: no code, not a chat, no files and no folder. */
  predicate Rejected(req: ExplainRequest) {
    RequestCode(req) == [] && req.mode.GetOr("") != "chat" && req.files.GetOr([]) == [] && req.entry.GetOr("") == []
  }

  /** The thread: the body's id, else the header's, else a new one. */
  function ThreadId(req: ExplainRequest, header: Option<string>, newId: string): (r: string)
    ensures req.threadId.GetOr("") != [] ==> r == req.threadId.value
    ensures req.threadId.GetOr("") == [] && header.GetOr("") != [] ==> r == header.value
    ensures req.threadId.GetOr("") == [] && header.GetOr("") == [] ==> r == newId
  {
    if req.threadId.GetOr("") != [] then req.threadId.value
    else if header.GetOr("") != [] then header.value
    else newId
  }

  /** The input source: the request's, else "folder" when files or a folder are given, else "pasted". */
  function SourceOf(req: ExplainRequest): (r: string)
    ensures req.source.GetOr("") != [] ==> r == req.source.value
    ensures req.source.GetOr("") == [] ==>
              (r == "folder" <==> req.files.GetOr([]) != [] || req.entry.GetOr("") != [])
              && (r == "folder" || r == "pasted")
  {
    if req.source.GetOr("") != [] then req.source.value
    else if req.files.GetOr([]) != [] || req.entry.GetOr("") != [] then "folder"
    else "pasted"
  }

  /** A raw request file in the state: its path and content (it has no language or size yet). */
  function RawFile(f: FileInput): SourceFile {
    SourceFile(f.path, None, 0, f.content)
  }

  function RawFiles(fs: seq<FileInput>): (r: seq<SourceFile>)
    ensures |r| == |fs| && forall i :: 0 <= i < |fs| ==> r[i] == RawFile(fs[i])
  {
    if fs == [] then [] else [RawFile(fs[0])] + RawFiles(fs[1..])
  }

  /** The initial state of an accepted request. */
  function Prepared(req: ExplainRequest, code: string): ReviewState {
    var s := InitialState(code, Some(HistoryFromMessages(req.messages)), ModeOf(req), req.agents);
    s.(source := Some(SourceOf(req)),
       files := if req.files.GetOr([]) != [] then Some(RawFiles(req.files.value)) else None,
       folderPath := if req.entry.GetOr("") != [] then req.entry else None)
  }

  /** The mode a request asks for: its own when non-empty, else "orchestrator". */
  function ModeOf(req: ExplainRequest): string {
    if req.mode.GetOr("") != [] then req.mode.value else "orchestrator"
  }

  /** Preparing only sets source, files and folder on top of the initial state. */
  lemma PreparedOverInitial(req: ExplainRequest, code: string)
    ensures var s0 := InitialState(code, Some(HistoryFromMessages(req.messages)), ModeOf(req), req.agents);
            var s := Prepared(req, code);
            s.code == s0.code && s.mode == s0.mode && s.agents == s0.agents && s.history == s0.history
  {
  }

  /**
   * The prepared state carries the request's code, its mode (default
   * "orchestrator") and its agents (default quality, bug, security).
   */
  lemma PreparedInputs(req: ExplainRequest, code: string)
    ensures var s := Prepared(req, code);
            s.code == code
            && s.mode == (if req.mode.GetOr("") != [] then req.mode.value else "orchestrator")
            && s.agents == (if req.agents.GetOr([]) == [] then DefaultAgents else req.agents.value)
  {
    PreparedOverInitial(req, code);
  }

  /** The prepared state carries the last 20 of the request's messages, in order. */
  lemma PreparedHistory(req: ExplainRequest, code: string)
    ensures var s := Prepared(req, code);
            var msgs := req.messages.GetOr([]);
            |s.history| == (if |msgs| < 20 then |msgs| else 20) && s.history == msgs[|msgs| - |s.history|..]
  {
    var h := HistoryFromMessages(req.messages);
    PreparedOverInitial(req, code);
    assert Text.LastN(h, 20) == h;
  }

  /** It also carries the source, and the files and folder when given; nothing has run yet. */
  lemma PreparedSource(req: ExplainRequest, code: string)
    ensures var s := Prepared(req, code);
            s.source == Some(SourceOf(req))
            && (s.files.Some? <==> req.files.GetOr([]) != [])
            && (s.files.Some? ==> s.files.value == RawFiles(req.files.value))
            && (s.folderPath.Some? <==> req.entry.GetOr("") != [])
            && s.progress == 0.0 && s.toolLogs == [] && s.finalReport.None?
  {
  }

  /**
   * `explain`: a request with nothing to analyze gets a plain-text message;
   * any other starts a stream for its thread over the prepared state.
   */
  method Explain(req: ExplainRequest, header: Option<string>, newId: string) returns (r: Response)
    ensures r.Rejection? <==> Rejected(req)
    ensures r.Rejection? ==> r.text == RejectMessage
    ensures r.Accepted? ==> r.threadId == ThreadId(req, header, newId) && r.state == Prepared(req, RequestCode(req))
  {
    var code := ExtractCode(req);
    if code == [] && req.mode.GetOr("") != "chat" && req.files.GetOr([]) == [] && req.entry.GetOr("") == [] {
      return Rejection(RejectMessage);
    }
    var threadId := ThreadId(req, header, newId);
    var mode := if req.mode.GetOr("") != [] then req.mode.value else "orchestrator";
    var state := InitialState(code, Some(HistoryFromMessages(req.messages)), mode, req.agents);
    state := state.(source := Some(SourceOf(req)));
    if req.files.GetOr([]) != [] {
      state := state.(files := Some(RawFiles(req.files.value)));
    }
    if req.entry.GetOr("") != [] {
      state := state.(folderPath := req.entry);
    }
    return Accepted(threadId, state);
  }

  // ---------------------------------------------------------------------------
  // The report's paragraphs and the end of the stream
  // ---------------------------------------------------------------------------

  /** The pieces whose image under `f` is not empty, mapped by `f`, in order. */
  function KeptBy(pieces: seq<string>, f: string -> string): seq<string> {
    if pieces == [] then []
    else
      var p := f(pieces[|pieces| - 1]);
      KeptBy(pieces[..|pieces| - 1], f) + (if p != [] then [p] else [])
  }

  /** The pieces that are not blank, stripped, in order. */
  function Kept(pieces: seq<string>): seq<string> {
    KeptBy(pieces, Text.Strip)
  }

  /** Everything kept is a stripped, non-blank piece, nothing non-blank is lost, and order is kept. */
  lemma KeptFacts(pieces: seq<string>)
    ensures |Kept(pieces)| <= |pieces|
    ensures forall p :: p in Kept(pieces) ==> Text.IsStripped(p) && exists k :: 0 <= k < |pieces| && p == Text.Strip(pieces[k])
    ensures forall k :: 0 <= k < |pieces| && !Text.AllSpace(pieces[k]) ==> Text.Strip(pieces[k]) in Kept(pieces)
  {
    KeptSound(pieces, Text.Strip);
    KeptComplete(pieces, Text.Strip);
    forall p | p in Kept(pieces) ensures Text.IsStripped(p) {
      var k :| 0 <= k < |pieces| && p == Text.Strip(pieces[k]);
      Text.StripIsStripped(pieces[k]);
    }
    forall k | 0 <= k < |pieces| && !Text.AllSpace(pieces[k]) ensures Text.Strip(pieces[k]) != [] {
      Text.BlankIffAllSpace(pieces[k]);
    }
  }

  /** Everything kept is the non-empty image of some piece, and there are no more of them than pieces. */
  lemma {:induction false} KeptSound(pieces: seq<string>, f: string -> string)
    ensures |KeptBy(pieces, f)| <= |pieces|
    ensures forall p :: p in KeptBy(pieces, f) ==> p != [] && exists k :: 0 <= k < |pieces| && p == f(pieces[k])
  {
    if pieces != [] {
      var n := |pieces| - 1;
      var init := pieces[..n];
      KeptSound(init, f);
      forall p | p in KeptBy(pieces, f)
        ensures p != [] && exists k :: 0 <= k < |pieces| && p == f(pieces[k])
      {
        if p in KeptBy(init, f) {
          var k :| 0 <= k < |init| && p == f(init[k]);
          assert init[k] == pieces[k];
        } else {
          assert p == f(pieces[n]);
        }
      }
    }
  }

  /** No piece with a non-empty image is lost. */
  lemma {:induction false} KeptComplete(pieces: seq<string>, f: string -> string)
    ensures forall k :: 0 <= k < |pieces| && f(pieces[k]) != [] ==> f(pieces[k]) in KeptBy(pieces, f)
  {
    if pieces != [] {
      var n := |pieces| - 1;
      var init := pieces[..n];
      KeptComplete(init, f);
      forall k | 0 <= k < |pieces| && f(pieces[k]) != [] ensures f(pieces[k]) in KeptBy(pieces, f) {
        if k < n {
          assert init[k] == pieces[k];
        }
      }
    }
  }

  /** A separator absent from every piece is absent from everything kept. */
  lemma KeptFree(pieces: seq<string>, sep: string)
    requires forall k :: 0 <= k < |pieces| ==> !Text.Contains(pieces[k], sep)
    ensures forall p :: p in Kept(pieces) ==> !Text.Contains(p, sep)
  {
    KeptFacts(pieces);
    forall p | p in Kept(pieces) ensures !Text.Contains(p, sep) {
      var k :| 0 <= k < |pieces| && p == Text.Strip(pieces[k]);
      Text.StripInside(pieces[k]);
      if Text.Contains(p, sep) {
        Text.ContainsTrans(pieces[k], p, sep);
      }
    }
  }

  /** The paragraphs the final report is streamed in: split on blank lines, stripped, empties dropped. */
  function Paragraphs(text: string): seq<string> {
    Kept(Text.Split(text, "\n\n"))
  }

  /**
   * Each paragraph is stripped, non-empty and free of "\n\n"; every
   * non-blank piece between blank lines is one of them.
   */
  lemma ParagraphsFacts(text: string)
    ensures forall p :: p in Paragraphs(text) ==> Text.IsStripped(p) && !Text.Contains(p, "\n\n")
    ensures forall k :: 0 <= k < |Text.Split(text, "\n\n")| && !Text.AllSpace(Text.Split(text, "\n\n")[k]) ==>
              Text.Strip(Text.Split(text, "\n\n")[k]) in Paragraphs(text)
  {
    var pieces := Text.Split(text, "\n\n");
    KeptFacts(pieces);
    Text.SplitPiecesFree(text, "\n\n");
    KeptFree(pieces, "\n\n");
  }

  /** A report without blank lines is streamed as one paragraph, stripped. */
  lemma SingleParagraph(text: string)
    requires !Text.Contains(text, "\n\n") && !Text.AllSpace(text)
    ensures Paragraphs(text) == [Text.Strip(text)]
  {
    SplitWithoutSeparator(text, "\n\n");
    Text.BlankIffAllSpace(text);
    assert [text][..0] == [];
    assert KeptBy([text], Text.Strip) == KeptBy([], Text.Strip) + [Text.Strip(text)];
  }

  /** A string without the separator splits into itself alone. */
  lemma SplitWithoutSeparator(text: string, sep: string)
    requires |sep| > 0 && !Text.Contains(text, sep)
    ensures Text.Split(text, sep) == [text]
  {
    var i := Text.FindFrom(text, sep, 0);
    assert i < |text| ==> Text.OccursAt(text, sep, i);
  }

  /** The events of a list of payloads, in order. */
  function Events(payloads: seq<string>): (r: seq<string>)
    ensures |r| == |payloads| && forall i :: 0 <= i < |payloads| ==> r[i] == Sse(payloads[i])
  {
    if payloads == [] then [] else [Sse(payloads[0])] + Events(payloads[1..])
  }

  lemma EventsAppend(a: seq<string>, b: seq<string>)
    ensures Events(a + b) == Events(a) + Events(b)
  {
  }

  /** One more piece adds its stripped text to the events when it is not blank. */
  lemma EventsStep(pieces: seq<string>, i: nat)
    requires i < |pieces|
    ensures var p := Text.Strip(pieces[i]);
            Events(Kept(pieces[..i + 1])) == Events(Kept(pieces[..i])) + (if p != [] then [Sse(p)] else [])
  {
    var p := Text.Strip(pieces[i]);
    assert pieces[..i + 1][..i] == pieces[..i];
    var kept := if p != [] then [p] else [];
    assert Kept(pieces[..i + 1]) == Kept(pieces[..i]) + kept;
    EventsAppend(Kept(pieces[..i]), kept);
  }

  /** The loop that streams the final report: one event per paragraph. */
  method ReportEvents(finalText: string) returns (events: seq<string>)
    ensures events == Events(Paragraphs(finalText))
  {
    var pieces := Text.Split(finalText, "\n\n");
    events := [];
    var i := 0;
    while i < |pieces|
      invariant 0 <= i <= |pieces|
      invariant events == Events(Kept(pieces[..i]))
    {
      var p := Text.Strip(pieces[i]);
      EventsStep(pieces, i);
      if p != [] {
        events := events + [Sse(p)];
      }
      i := i + 1;
    }
    assert pieces[..i] == pieces;
  }

  const StreamOpen := ":::progress: 5"
  const StreamDone := ":::progress: 100"

  /** U+1F4AC SPEECH BALLOON, the emoji the chat-ready line opens with. */
  const SpeechBalloon: char := '\U{1F4AC}'
  /** The four characters Windows-1254 gives the UTF-8 bytes F0 9F 92 AC of U+1F4AC. */
  const BalloonMisread := "\U{011F}\U{0178}\U{2019}\U{00AC}"
  const ChatReadyTail := " Chat ready. Use the sidebar to ask follow-ups."
  /** The chat-ready line as it is written. */
  const ChatReadyAsWritten := BalloonMisread + ChatReadyTail
  /** The chat-ready line with the emoji it evidently stands for. */
  const ChatReady := [SpeechBalloon] + ChatReadyTail

  /** The end of the /explain stream as written: the garbled chat-ready line, then full progress. */
  function StreamEndAsWritten(events: seq<string>): (r: seq<string>)
    ensures |r| == |events| + 2 && r[..|events|] == events
    ensures r[|r| - 2] == Sse(ChatReadyAsWritten) && r[|r| - 1] == Sse(StreamDone)
  {
    events + [Sse(ChatReadyAsWritten), Sse(StreamDone)]
  }

  /**
   * The written chat-ready line is the intended one with its first
   * character replaced by the four characters Windows-1254 gives the UTF-8
   * bytes of that character.
   */
  lemma ChatReadyMisread()
    ensures Encoding.Utf8(SpeechBalloon) == [0xF0, 0x9F, 0x92, 0xAC]
    ensures Encoding.Read1254(Encoding.Utf8(SpeechBalloon)) == Some(BalloonMisread)
    ensures ChatReadyAsWritten != ChatReady
  {
    var cp := SpeechBalloon as int;
    assert cp / 0x40000 == 0 && (cp / 0x1000) % 0x40 == 0x1F && (cp / 0x40) % 0x40 == 0x12 && cp % 0x40 == 0x2C;
    var bs := Encoding.Utf8(SpeechBalloon);
    assert bs == [0xF0, 0x9F, 0x92, 0xAC];
    assert Encoding.Cp1254(0xF0) == Some('\U{011F}') && Encoding.Cp1254(0x9F) == Some('\U{0178}');
    assert Encoding.Cp1254(0x92) == Some('\U{2019}') && Encoding.Cp1254(0xAC) == Some('\U{00AC}');
    Encoding.Read1254Cons(0xAC, []);
    Encoding.Read1254Cons(0x92, [0xAC]);
    Encoding.Read1254Cons(0x9F, [0x92, 0xAC]);
    Encoding.Read1254Cons(0xF0, [0x9F, 0x92, 0xAC]);
    assert [0xF0] + [0x9F, 0x92, 0xAC] == bs;
    assert ['\U{011F}'] + (['\U{0178}'] + (['\U{2019}'] + (['\U{00AC}'] + []))) == BalloonMisread;
    assert |ChatReadyAsWritten| != |ChatReady|;
  }

  /**
   * Whatever was streamed before, the stream ends with the chat-ready line
   * (opening with the speech-balloon emoji, one character) and full progress.
   */
  function StreamEnd(events: seq<string>): (r: seq<string>)
    ensures |r| == |events| + 2 && r[..|events|] == events
    ensures r[|r| - 2] == Sse(ChatReady) && r[|r| - 1] == Sse(StreamDone)
    ensures r[|r| - 2] == Sse([SpeechBalloon] + ChatReadyTail)
    ensures Encoding.Utf8Value(Encoding.Utf8(SpeechBalloon)) == 0x1F4AC
  {
    Encoding.Utf8RoundTrip(SpeechBalloon);
    events + [Sse(ChatReady), Sse(StreamDone)]
  }

  // ---------------------------------------------------------------------------
  // POST /explain/upload
  // ---------------------------------------------------------------------------

  const DefaultAgentsField := "quality,bug,security"

  /** The `agents` form field: split on commas, trimmed, empties dropped. */
  function UploadAgents(field: string): seq<string> {
    Kept(Text.Split(field, ","))
  }

  /** Each agent is a trimmed name without a comma; every non-blank entry is kept. */
  lemma UploadAgentsFacts(field: string)
    ensures forall a :: a in UploadAgents(field) ==> Text.IsStripped(a) && ',' !in a
    ensures forall k :: 0 <= k < |Text.Split(field, ",")| && !Text.AllSpace(Text.Split(field, ",")[k]) ==>
              Text.Strip(Text.Split(field, ",")[k]) in UploadAgents(field)
  {
    var pieces := Text.Split(field, ",");
    KeptFacts(pieces);
    Text.SplitPiecesFree(field, ",");
    KeptFree(pieces, ",");
    forall a | a in UploadAgents(field) ensures ',' !in a {
      Text.NotContainsChar(a, ',');
    }
  }

  // ---------------------------------------------------------------------------
  // The plain-text /explain endpoint
  // ---------------------------------------------------------------------------

  const NoCodeMessage := "Please provide code to analyze.\n"
  const PlainOpen := ":::progress: 5\n"
  const PlainDone := ":::progress: 100\n"

  /**
   * The plain-text `explain`: without code only the request for code is
   * sent; otherwise a stream starts over the initial state (no source,
   * files or folder).
   */
  method PlainExplain(req: ExplainRequest, header: Option<string>, newId: string) returns (r: Response)
    ensures r.Rejection? <==> RequestCode(req) == []
    ensures r.Rejection? ==> r.text == NoCodeMessage
    ensures r.Accepted? ==>
              r.threadId == ThreadId(req, header, newId)
              && r.state == InitialState(RequestCode(req), Some(HistoryFromMessages(req.messages)),
                                         if req.mode.GetOr("") != [] then req.mode.value else "orchestrator", req.agents)
  {
    var code := ExtractCode(req);
    if code == [] {
      return Rejection(NoCodeMessage);
    }
    var threadId := ThreadId(req, header, newId);
    var mode := if req.mode.GetOr("") != [] then req.mode.value else "orchestrator";
    return Accepted(threadId, InitialState(code, Some(HistoryFromMessages(req.messages)), mode, req.agents));
  }

  /** When the event stream fails: the report (if any) and a newline, then full progress. */
  function PlainFallback(report: Option<string>): (r: seq<string>)
    ensures |r| >= 1 && r[|r| - 1] == PlainDone
    ensures report.GetOr("") != [] ==> r == [report.value, "\n", PlainDone]
    ensures report.GetOr("") == [] ==> r == [PlainDone]
  {
    (if report.GetOr("") != [] then [report.value, "\n"] else []) + [PlainDone]
  }
}
