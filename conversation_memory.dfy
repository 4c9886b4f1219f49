/**
 * `ConversationMemory`: per thread id, a slot holding the chat history (human
 * and AI messages), the last analysis report's text and hash, and the
 * structured reports. Slots are created on first use.
 *
 * SHA-256 is the parameter `sha`; the locks are left out (the model is
 * sequential).
 */
module ConversationMemory {
  import opened Wrappers
  import Text
  import State

  /** A history entry: a `HumanMessage` or an `AIMessage`. */
  datatype ChatMessage = Human(content: string) | Ai(content: string)

  /** `_ThreadSlot`: report values have the caller's type `R`. */
  datatype Slot<R> = Slot(lastReportHash: Option<string>, lastReportText: Option<string>,
                          history: seq<ChatMessage>, reports: map<string, R>)

  function NewSlot<R>(): Slot<R> {
    Slot(None, None, [], map[])
  }

  function SlotOf<R>(slots: map<string, Slot<R>>, threadId: string): Slot<R> {
    if threadId in slots then slots[threadId] else NewSlot()
  }

  /** `_hash_text(text)`: the digest of the stripped text. */
  function HashText(text: string, sha: string -> string): string {
    sha(Text.Strip(text))
  }

  /** Texts that differ only in surrounding whitespace hash alike. */
  lemma HashIgnoresSurroundingSpace(w1: string, s: string, w2: string, sha: string -> string)
    requires Text.AllSpace(w1) && Text.AllSpace(w2)
    ensures HashText(w1 + s + w2, sha) == HashText(s, sha)
  {
    Text.StripSurrounded(w1, s, w2);
  }

  /** The role `last_message` and `get_history` report: AI messages are "assistant", all others "user". */
  function RoleOf(m: ChatMessage): string {
    if m.Ai? then "assistant" else "user"
  }

  /** What `_append` stores: stripped, non-empty content. */
  predicate Stored(m: ChatMessage) {
    Text.IsStripped(m.content)
  }

  predicate AllStored(h: seq<ChatMessage>) {
    forall i :: 0 <= i < |h| ==> Stored(h[i])
  }

  /** A stored report text is stripped and non-empty. */
  predicate ReportTextStored(t: Option<string>) {
    t.Some? ==> Text.IsStripped(t.value)
  }

  predicate SlotOk<R>(s: Slot<R>) {
    AllStored(s.history) && ReportTextStored(s.lastReportText)
  }

  // ---- the history operations, as functions of the history ----

  /** `_append(thread_id, role, content)`: the stripped content as a human ("user") or AI message; nothing if it is blank. */
  function Appended(h: seq<ChatMessage>, role: string, content: string): (r: seq<ChatMessage>)
    ensures Text.IsBlank(content) ==> r == h
    ensures !Text.IsBlank(content) ==>
              |r| == |h| + 1 && r[..|h|] == h && r[|h|].content == Text.Strip(content)
              && (r[|h|].Human? <==> role == "user") && Stored(r[|h|])
    ensures !Text.IsBlank(content) ==> r == h + [if role == "user" then Human(Text.Strip(content)) else Ai(Text.Strip(content))]
  {
    var s := Text.Strip(content);
    Text.StripIsStripped(content);
    if s == [] then h
    else h + [if role == "user" then Human(s) else Ai(s)]
  }

  /** Appending keeps every stored message stripped and non-empty. */
  lemma AppendedStored(h: seq<ChatMessage>, role: string, content: string)
    requires AllStored(h)
    ensures AllStored(Appended(h, role, content))
  {
    var r := Appended(h, role, content);
    forall i | 0 <= i < |r| ensures Stored(r[i]) {
      if i < |h| {
        assert r[i] == r[..|h|][i];
      }
    }
  }

  /** `last_message(thread_id)`: the role and content of the final message, if any. */
  function LastMessageOf(h: seq<ChatMessage>): (r: Option<(string, string)>)
    ensures r.None? <==> h == []
    ensures r.Some? ==> r.value.1 == h[|h| - 1].content
                        && (r.value.0 == "assistant" <==> h[|h| - 1].Ai?)
                        && (r.value.0 == "user" <==> h[|h| - 1].Human?)
  {
    if h == [] then None else Some((RoleOf(h[|h| - 1]), h[|h| - 1].content))
  }

  /** The last message has role `role` and, once stripped, the same text as `content`. */
  predicate IsRepeat(h: seq<ChatMessage>, role: string, content: string) {
    Repeats(LastMessageOf(h), role, content)
  }

  /** The reported last message has role `role` and, once stripped, the same text as `content`. */
  predicate Repeats(last: Option<(string, string)>, role: string, content: string) {
    last.Some? && last.value.0 == role && Text.Strip(last.value.1) == Text.Strip(content)
  }

  /** The history after `append_user(thread_id, content)`. */
  function AfterUser(h: seq<ChatMessage>, content: string): (r: seq<ChatMessage>)
    ensures content == [] || Text.IsBlank(content) || IsRepeat(h, "user", content) ==> r == h
    ensures !Text.IsBlank(content) && !IsRepeat(h, "user", content) ==>
              r == h + [Human(Text.Strip(content))]
  {
    if content == [] || IsRepeat(h, "user", content) then h
    else
      Appended(h, "user", content)
  }

  /** The result of `append_assistant_if_new(thread_id, content)`. */
  predicate AssistantAccepted(h: seq<ChatMessage>, content: string) {
    content != [] && !IsRepeat(h, "assistant", content)
  }

  /** The history after `append_assistant_if_new(thread_id, content)`. */
  function AfterAssistant(h: seq<ChatMessage>, content: string): (r: seq<ChatMessage>)
    ensures content == [] || Text.IsBlank(content) || IsRepeat(h, "assistant", content) ==> r == h
    ensures !Text.IsBlank(content) && !IsRepeat(h, "assistant", content) ==>
              r == h + [Ai(Text.Strip(content))]
  {
    if content == [] || IsRepeat(h, "assistant", content) then h
    else Appended(h, "assistant", content)
  }

  /**
   * Whitespace-only content is never a repeat of a stored message, so
   * `append_assistant_if_new` reports True although it stores nothing.
   */
  lemma WhitespaceAssistantAccepted(h: seq<ChatMessage>, content: string)
    requires AllStored(h) && content != [] && Text.AllSpace(content)
    ensures AssistantAccepted(h, content)
    ensures AfterAssistant(h, content) == h
  {
    Text.BlankIffAllSpace(content);
    if h != [] {
      Text.StrippedFixed(h[|h| - 1].content);
    }
  }

  /** A message repeated right after itself is not stored twice. */
  lemma NoConsecutiveRepeat(h: seq<ChatMessage>, content: string)
    requires AllStored(h) && !Text.IsBlank(content)
    ensures AfterUser(AfterUser(h, content), content) == AfterUser(h, content)
    ensures AfterAssistant(AfterAssistant(h, content), content) == AfterAssistant(h, content)
  {
    Text.StripIdempotent(content);
    var u := AfterUser(h, content);
    if u != h {
      assert LastMessageOf(u) == Some(("user", Text.Strip(content)));
    }
    var a := AfterAssistant(h, content);
    if a != h {
      assert LastMessageOf(a) == Some(("assistant", Text.Strip(content)));
    }
  }

  /** `last_assistant(thread_id)`: the content of the most recent AI message, if any. */
  function LastAssistantOf(h: seq<ChatMessage>): (r: Option<string>)
    ensures r.Some? ==> exists i :: 0 <= i < |h| && h[i] == Ai(r.value)
                                    && forall j :: i < j < |h| ==> h[j].Human?
    ensures r.None? ==> forall i :: 0 <= i < |h| ==> h[i].Human?
  {
    if h == [] then None
    else if h[|h| - 1].Ai? then Some(h[|h| - 1].content)
    else
      var r := LastAssistantOf(h[..|h| - 1]);
      assert forall i :: 0 <= i < |h| - 1 ==> h[..|h| - 1][i] == h[i];
      r
  }

  /** One entry of `get_history`. */
  function Entry(m: ChatMessage): State.HistoryMessage {
    State.HistoryMessage(RoleOf(m), m.content)
  }

  /** A list with one entry per message of the tail, in order, is the view. */
  lemma HistoryViewIs(h: seq<ChatMessage>, limit: int, out: seq<State.HistoryMessage>)
    requires |out| == |Text.LastN(h, limit)|
    requires forall k :: 0 <= k < |out| ==> out[k] == Entry(Text.LastN(h, limit)[k])
    ensures out == HistoryView(h, limit)
  {
  }

  /** `get_history(thread_id, limit)`: the last `limit` messages (all of them when `limit` is 0), oldest first. */
  function HistoryView(h: seq<ChatMessage>, limit: int): (r: seq<State.HistoryMessage>)
    ensures |r| <= |h|
    ensures limit > 0 ==> |r| == if limit < |h| then limit else |h|
    ensures limit == 0 ==> |r| == |h|
    ensures forall k :: 0 <= k < |r| ==> r[k] == Entry(h[|h| - |r| + k])
  {
    var tail := Text.LastN(h, limit);
    seq(|tail|, k requires 0 <= k < |tail| => Entry(tail[k]))
  }

  /** The slot after `set_analysis(thread_id, text, reports)`. */
  function WithAnalysis<R>(s: Slot<R>, text: string, reports: Option<map<string, R>>,
                           sha: string -> string): (r: Slot<R>)
    ensures r.history == s.history
    ensures Text.IsBlank(text) ==> r.lastReportText.None? && r.lastReportHash.None?
    ensures !Text.IsBlank(text) ==>
              r.lastReportText == Some(Text.Strip(text)) && r.lastReportHash == Some(HashText(text, sha))
    ensures ReportTextStored(r.lastReportText)
    ensures r.reports == if reports.Some? then reports.value else s.reports
  {
    var t := Text.Strip(text);
    var newReports := if reports.Some? then reports.value else s.reports;
    if t == [] then
      s.(lastReportText := None, lastReportHash := None, reports := newReports)
    else
      Text.StripIsStripped(text);
      Text.StripIdempotent(text);
      assert HashText(t, sha) == HashText(text, sha);
      s.(lastReportText := Some(t), lastReportHash := Some(HashText(t, sha)), reports := newReports)
  }

  lemma UpdateTwice<R>(m: map<string, Slot<R>>, t: string, x: Slot<R>, y: Slot<R>)
    ensures m[t := x][t := y] == m[t := y]
  {
  }

  // ---- the object ----

  /** Every slot of the map keeps its invariant. */
  ghost predicate AllOk<R>(m: map<string, Slot<R>>) {
    forall t :: t in m ==> SlotOk(m[t])
  }

  /** Storing a good slot keeps every slot good. */
  lemma UpdateOk<R>(m: map<string, Slot<R>>, t: string, slot: Slot<R>)
    requires AllOk(m) && SlotOk(slot)
    ensures AllOk(m[t := slot])
  {
  }

  class Memory<R> {
    /** `_slots`: thread id → its slot. */
    var slots: map<string, Slot<R>>

    ghost predicate Valid()
      reads this
    {
      AllOk(slots)
    }

    constructor ()
      ensures Valid() && slots == map[]
    {
      slots := map[];
    }

    /** `_get_slot(thread_id)`: the thread's slot, created empty on first use. */
    method GetSlot(threadId: string) returns (slot: Slot<R>)
      requires Valid()
      modifies this
      ensures Valid() && SlotOk(slot)
      ensures slot == SlotOf(old(slots), threadId)
      ensures slots == old(slots)[threadId := slot]
    {
      if threadId !in slots {
        slots := slots[threadId := NewSlot()];
      }
      slot := slots[threadId];
    }

    method GetLastReportHash(threadId: string) returns (h: Option<string>)
      requires Valid()
      modifies this
      ensures Valid()
      ensures slots == old(slots)[threadId := SlotOf(old(slots), threadId)]
      ensures h == SlotOf(old(slots), threadId).lastReportHash
    {
      var slot := GetSlot(threadId);
      h := slot.lastReportHash;
    }

    /** `set_last_report_hash(thread_id, text)`: records and returns the text's hash. */
    method SetLastReportHash(threadId: string, text: string, sha: string -> string) returns (h: string)
      requires Valid()
      modifies this
      ensures Valid()
      ensures h == HashText(text, sha)
      ensures slots == old(slots)[threadId := SlotOf(old(slots), threadId).(lastReportHash := Some(h))]
    {
      h := HashText(text, sha);
      var slot := GetSlot(threadId);
      var updated := slot.(lastReportHash := Some(h));
      assert updated.history == slot.history && updated.lastReportText == slot.lastReportText;
      UpdateOk(slots, threadId, updated);
      UpdateTwice(old(slots), threadId, slot, updated);
      slots := slots[threadId := updated];
    }

    /** `_append(thread_id, role, content)`: blank content creates no slot and stores nothing. */
    method Append(threadId: string, role: string, content: string)
      requires Valid()
      modifies this
      ensures Valid()
      ensures Text.IsBlank(content) ==> slots == old(slots)
      ensures !Text.IsBlank(content) ==>
                slots == old(slots)[threadId := SlotOf(old(slots), threadId).(
                           history := Appended(SlotOf(old(slots), threadId).history, role, content))]
    {
      var s := Text.Strip(content);
      if s == [] {
        return;
      }
      var slot := GetSlot(threadId);
      AppendedStored(slot.history, role, content);
      var updated := slot.(history := Appended(slot.history, role, content));
      assert SlotOk(updated);
      UpdateOk(slots, threadId, updated);
      UpdateTwice(old(slots), threadId, slot, updated);
      slots := slots[threadId := updated];
    }

    /** `append_user(thread_id, content)` */
    method AppendUser(threadId: string, content: string)
      requires Valid()
      modifies this
      ensures Valid()
      ensures content == [] ==> slots == old(slots)
      ensures content != [] ==>
                slots == old(slots)[threadId := SlotOf(old(slots), threadId).(
                           history := AfterUser(SlotOf(old(slots), threadId).history, content))]
    {
      if content == [] {
        return;
      }
      ghost var slot0 := SlotOf(old(slots), threadId);
      var last := LastMessage(threadId);
      ghost var mid := slots;
      assert SlotOf(mid, threadId) == slot0;
      if Repeats(last, "user", content) {
        assert AfterUser(slot0.history, content) == slot0.history;
        assert slot0.(history := slot0.history) == slot0;
        return;
      }
      assert AfterUser(slot0.history, content) == Appended(slot0.history, "user", content);
      Append(threadId, "user", content);
      UpdateTwice(old(slots), threadId, slot0, slot0.(history := Appended(slot0.history, "user", content)));
    }

    /** `append_assistant_if_new(thread_id, content)` */
    method AppendAssistantIfNew(threadId: string, content: string) returns (added: bool)
      requires Valid()
      modifies this
      ensures Valid()
      ensures added == AssistantAccepted(SlotOf(old(slots), threadId).history, content)
      ensures content == [] ==> slots == old(slots)
      ensures content != [] ==>
                slots == old(slots)[threadId := SlotOf(old(slots), threadId).(
                           history := AfterAssistant(SlotOf(old(slots), threadId).history, content))]
    {
      if content == [] {
        return false;
      }
      ghost var slot0 := SlotOf(old(slots), threadId);
      var last := LastMessage(threadId);
      ghost var mid := slots;
      assert SlotOf(mid, threadId) == slot0;
      if Repeats(last, "assistant", content) {
        assert AfterAssistant(slot0.history, content) == slot0.history;
        assert slot0.(history := slot0.history) == slot0;
        return false;
      }
      assert AfterAssistant(slot0.history, content) == Appended(slot0.history, "assistant", content);
      Append(threadId, "assistant", content);
      UpdateTwice(old(slots), threadId, slot0, slot0.(history := Appended(slot0.history, "assistant", content)));
      added := true;
    }

    /** `last_message(thread_id)` */
    method LastMessage(threadId: string) returns (r: Option<(string, string)>)
      requires Valid()
      modifies this
      ensures Valid()
      ensures slots == old(slots)[threadId := SlotOf(old(slots), threadId)]
      ensures r == LastMessageOf(SlotOf(old(slots), threadId).history)
    {
      var slot := GetSlot(threadId);
      var msgs := slot.history;
      if msgs == [] {
        return None;
      }
      var m := msgs[|msgs| - 1];
      var role := if m.Ai? then "assistant" else "user";
      r := Some((role, m.content));
    }

    /** `last_assistant(thread_id)`: scans the history from the newest message back. */
    method LastAssistant(threadId: string) returns (r: Option<string>)
      requires Valid()
      modifies this
      ensures Valid()
      ensures slots == old(slots)[threadId := SlotOf(old(slots), threadId)]
      ensures r == LastAssistantOf(SlotOf(old(slots), threadId).history)
    {
      var slot := GetSlot(threadId);
      var msgs := slot.history;
      var i := |msgs|;
      assert msgs[..i] == msgs;
      while i > 0
        invariant 0 <= i <= |msgs|
        invariant LastAssistantOf(msgs) == LastAssistantOf(msgs[..i])
      {
        if msgs[i - 1].Ai? {
          return Some(msgs[i - 1].content);
        }
        assert msgs[..i][..i - 1] == msgs[..i - 1];
        i := i - 1;
      }
      r := None;
    }

    /** `get_history(thread_id, limit)`: the last `limit` messages as role/content pairs. */
    method GetHistory(threadId: string, limit: int) returns (out: seq<State.HistoryMessage>)
      requires Valid()
      modifies this
      ensures Valid()
      ensures slots == old(slots)[threadId := SlotOf(old(slots), threadId)]
      ensures out == HistoryView(SlotOf(old(slots), threadId).history, limit)
    {
      var slot := GetSlot(threadId);
      var tail := Text.LastN(slot.history, limit);
      out := [];
      var i := 0;
      while i < |tail|
        invariant 0 <= i <= |tail|
        invariant |out| == i
        invariant forall k :: 0 <= k < i ==> out[k] == Entry(tail[k])
      {
        var m := tail[i];
        out := out + [State.HistoryMessage(if m.Ai? then "assistant" else "user", m.content)];
        i := i + 1;
      }
      HistoryViewIs(slot.history, limit, out);
    }

    /** `set_analysis(thread_id, text, reports)`: reports are replaced only when given. */
    method SetAnalysis(threadId: string, text: string, reports: Option<map<string, R>>,
                       sha: string -> string)
      requires Valid()
      modifies this
      ensures Valid()
      ensures slots == old(slots)[threadId := WithAnalysis(SlotOf(old(slots), threadId), text, reports, sha)]
    {
      var slot := GetSlot(threadId);
      var updated := WithAnalysis(slot, text, reports, sha);
      assert SlotOk(updated);
      UpdateOk(slots, threadId, updated);
      UpdateTwice(old(slots), threadId, slot, updated);
      slots := slots[threadId := updated];
    }

    /** `get_analysis(thread_id)`: the last report text and a copy of the reports. */
    method GetAnalysis(threadId: string) returns (text: Option<string>, reports: map<string, R>)
      requires Valid()
      modifies this
      ensures Valid()
      ensures slots == old(slots)[threadId := SlotOf(old(slots), threadId)]
      ensures text == SlotOf(old(slots), threadId).lastReportText
      ensures reports == SlotOf(old(slots), threadId).reports
    {
      var slot := GetSlot(threadId);
      text := slot.lastReportText;
      reports := slot.reports;
    }
  }
}
