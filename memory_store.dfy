/** The chat-memory store that compacts long histories: past thirty
    messages, and at most once per five minutes per memory, everything but
    the last twenty messages is replaced by a model-written summary. */
module MemoryStore {
  import opened Wrappers
  import opened Strs
  import opened Messages

  const SUMMARIZATION_TRIGGER_SIZE: int := 30
  const RECENT_MESSAGES_TO_KEEP: int := 20
  const SUMMARIZATION_COOLDOWN_MS: int := 5 * 60 * 1000
  const SUMMARY_PREFIX: string := "[Context Summary]"
  const SUMMARY_PROMPT: string := "Summarize the following conversation history concisely, preserving:\n- Key decisions and conclusions\n- Important context and requirements\n- Current task state and progress\nKeep it under 500 words. Output the summary directly, no preamble.\n\n"

  // ---------------------------------------------------------------------------
  // The summary prompt
  // ---------------------------------------------------------------------------

  /** The transcript line a message contributes: user messages and AI
      messages with text; every other kind contributes none. */
  function TranscriptLine(m: ChatMessage): (r: seq<string>)
    ensures |r| <= 1
    ensures r != [] <==> m.UserMessage? || (m.AiMessage? && m.aiText.Some?)
  {
    match m
    case UserMessage(t) => ["User: " + t + "\n"]
    case AiMessage(text, _, _, _) => if text.Some? then ["Assistant: " + text.value + "\n"] else []
    case _ => []
  }

  lemma TranscriptLineShape(m: ChatMessage)
    ensures forall l :: l in TranscriptLine(m) ==> (StartsWith(l, "User: ") || StartsWith(l, "Assistant: ")) && EndsWith(l, "\n")
  {
    match m
    case UserMessage(t) =>
      assert ("User: " + t + "\n")[..|"User: "|] == "User: ";
    case AiMessage(text, _, _, _) =>
      if text.Some? {
        assert ("Assistant: " + text.value + "\n")[..|"Assistant: "|] == "Assistant: ";
      }
    case _ =>
  }

  /** The transcript lines of a message list, in message order. */
  function TranscriptLines(ms: seq<ChatMessage>): (r: seq<string>)
    ensures |r| <= |ms|
  {
    if |ms| == 0 then [] else TranscriptLines(ms[..|ms| - 1]) + TranscriptLine(ms[|ms| - 1])
  }

  /** Every line of the transcript is a `User: ` or an `Assistant: ` line. */
  lemma {:induction false} TranscriptLinesShape(ms: seq<ChatMessage>)
    ensures forall l :: l in TranscriptLines(ms) ==> (StartsWith(l, "User: ") || StartsWith(l, "Assistant: ")) && EndsWith(l, "\n")
  {
    if |ms| > 0 {
      TranscriptLinesShape(ms[..|ms| - 1]);
      TranscriptLineShape(ms[|ms| - 1]);
    }
  }

  /** The transcript of a concatenation is the concatenation of the
      transcripts. */
  lemma {:induction false} TranscriptAppend(a: seq<ChatMessage>, b: seq<ChatMessage>)
    ensures TranscriptLines(a + b) == TranscriptLines(a) + TranscriptLines(b)
  {
    if |b| == 0 {
      assert a + b == a;
    } else {
      var init, last := b[..|b| - 1], b[|b| - 1];
      var ab := a + b;
      assert ab[..|ab| - 1] == a + init;
      assert ab[|ab| - 1] == last;
      TranscriptLinesSnoc(ab);
      TranscriptAppend(a, init);
      TranscriptLinesSnoc(b);
    }
  }

  /** The transcript of a non-empty list ends with its last message's line. */
  lemma TranscriptLinesSnoc(ms: seq<ChatMessage>)
    requires |ms| > 0
    ensures TranscriptLines(ms) == TranscriptLines(ms[..|ms| - 1]) + TranscriptLine(ms[|ms| - 1])
  {
  }

  /** System messages, tool results and AI messages without text leave the
      transcript as it is. */
  lemma TranscriptSkips(ms: seq<ChatMessage>, m: ChatMessage)
    requires !m.UserMessage? && !(m.AiMessage? && m.aiText.Some?)
    ensures TranscriptLines(ms + [m]) == TranscriptLines(ms)
  {
    TranscriptAppend(ms, [m]);
    assert [m][..0] == [];
  }

  function Concat(lines: seq<string>): string {
    if |lines| == 0 then "" else Concat(lines[..|lines| - 1]) + lines[|lines| - 1]
  }

  lemma ConcatSnoc(lines: seq<string>, extra: seq<string>)
    requires |extra| <= 1
    ensures Concat(lines + extra) == Concat(lines) + (if extra == [] then "" else extra[0])
  {
    if extra == [] {
      assert lines + extra == lines;
    } else {
      assert (lines + extra)[..|lines|] == lines;
    }
  }

  /** `existingSummary.substring(SUMMARY_PREFIX.length()).trim()`. */
  function PreviousSummaryText(existingSummary: string): string
    requires |SUMMARY_PREFIX| <= |existingSummary|
  {
    Trim(existingSummary[|SUMMARY_PREFIX|..])
  }

  /** The part of the prompt between the fixed instructions and the
      transcript. */
  function PromptHeader(existingSummary: Option<string>): string
    requires existingSummary.Some? ==> |SUMMARY_PREFIX| <= |existingSummary.value|
  {
    if existingSummary.Some? then
      "Previous summary:\n" + PreviousSummaryText(existingSummary.value) + "\n\nNew messages to incorporate:\n"
    else "Conversation:\n"
  }

  /** The prompt `generateSummary` sends to the cheapest chat model. */
  function SummaryPrompt(existingSummary: Option<string>, ms: seq<ChatMessage>): string
    requires existingSummary.Some? ==> |SUMMARY_PREFIX| <= |existingSummary.value|
  {
    SUMMARY_PROMPT + PromptHeader(existingSummary) + Concat(TranscriptLines(ms))
  }

  /** The transcript text a message contributes. */
  function Piece(m: ChatMessage): string {
    var line := TranscriptLine(m);
    if line == [] then "" else line[0]
  }

  lemma TranscriptStep(ms: seq<ChatMessage>, i: int)
    requires 0 <= i < |ms|
    ensures Concat(TranscriptLines(ms[..i + 1])) == Concat(TranscriptLines(ms[..i])) + Piece(ms[i])
  {
    assert ms[..i + 1][..i] == ms[..i];
    ConcatSnoc(TranscriptLines(ms[..i]), TranscriptLine(ms[i]));
  }

  /** `generateSummary`, up to the model call: the prompt, built line by
      line. */
  method BuildSummaryPrompt(existingSummary: Option<string>, ms: seq<ChatMessage>) returns (prompt: string)
    requires existingSummary.Some? ==> |SUMMARY_PREFIX| <= |existingSummary.value|
    ensures prompt == SummaryPrompt(existingSummary, ms)
  {
    var sb := SUMMARY_PROMPT + PromptHeader(existingSummary);
    ghost var head := sb;
    var i := 0;
    while i < |ms|
      invariant 0 <= i <= |ms|
      invariant sb == head + Concat(TranscriptLines(ms[..i]))
    {
      TranscriptStep(ms, i);
      AppendAssoc(head, Concat(TranscriptLines(ms[..i])), Piece(ms[i]));
      sb := AppendTranscriptLine(sb, ms[i]);
      i := i + 1;
    }
    assert ms[..i] == ms;
    prompt := sb;
  }

  /** One step of the prompt loop: a user message or an assistant text adds
      its line, anything else nothing. */
  method AppendTranscriptLine(sb: string, m: ChatMessage) returns (r: string)
    ensures r == sb + Piece(m)
  {
    r := sb;
    match m {
      case UserMessage(t) =>
        r := sb + ("User: " + t + "\n");
      case AiMessage(text, _, _, _) =>
        if text.Some? {
          r := sb + ("Assistant: " + text.value + "\n");
        }
      case _ =>
    }
  }

  // ---------------------------------------------------------------------------
  // Compression
  // ---------------------------------------------------------------------------

  /** The older part begins with a summary written by an earlier
      compression. */
  predicate StartsWithSummary(older: seq<ChatMessage>) {
    |older| > 0 && older[0].SystemMessage? && StartsWith(older[0].text, SUMMARY_PREFIX)
  }

  /** The prompt `compressMessages` has summarised: an earlier summary at
      the head of the older part is handed over as the previous summary and
      not listed again as conversation. */
  function CompressionPrompt(messages: seq<ChatMessage>): string
    requires |messages| >= RECENT_MESSAGES_TO_KEEP
  {
    var older := messages[..|messages| - RECENT_MESSAGES_TO_KEEP];
    if StartsWithSummary(older) then SummaryPrompt(Some(older[0].text), older[1..])
    else SummaryPrompt(None, older)
  }

  /** The compressed list: the new summary as a system message, then the
      twenty most recent messages unchanged. */
  function Compressed(messages: seq<ChatMessage>, summaryText: string): (r: seq<ChatMessage>)
    requires |messages| >= RECENT_MESSAGES_TO_KEEP
    ensures |r| == RECENT_MESSAGES_TO_KEEP + 1
    ensures r[0].SystemMessage? && StartsWith(r[0].text, SUMMARY_PREFIX + "\n")
    ensures r[1..] == messages[|messages| - RECENT_MESSAGES_TO_KEEP..]
  {
    var head := SystemMessage(SUMMARY_PREFIX + "\n" + summaryText);
    assert head.text[..|SUMMARY_PREFIX + "\n"|] == SUMMARY_PREFIX + "\n";
    [head] + messages[|messages| - RECENT_MESSAGES_TO_KEEP..]
  }

  /** `compressMessages`, with the model's answer to the prompt as a
      parameter; the prompt is returned as well. */
  method CompressMessages(messages: seq<ChatMessage>, reply: string) returns (result: seq<ChatMessage>, prompt: string)
    requires |messages| >= RECENT_MESSAGES_TO_KEEP
    ensures prompt == CompressionPrompt(messages)
    ensures result == Compressed(messages, reply)
  {
    var splitIndex := |messages| - RECENT_MESSAGES_TO_KEEP;
    var oldMessages := messages[..splitIndex];
    var recentMessages := messages[splitIndex..];
    var existingSummary: Option<string> := None;
    var toSummarize := oldMessages;
    if |oldMessages| > 0 && oldMessages[0].SystemMessage? && StartsWith(oldMessages[0].text, SUMMARY_PREFIX) {
      existingSummary := Some(oldMessages[0].text);
      toSummarize := oldMessages[1..];
    }
    prompt := BuildSummaryPrompt(existingSummary, toSummarize);
    result := [SystemMessage(SUMMARY_PREFIX + "\n" + reply)] + recentMessages;
  }

  /** A compressed list that has grown again and is compressed once more
      hands its summary on as the previous summary, without the prefix and
      surrounding whitespace, and lists only the messages after it. */
  lemma RecompressionCarriesSummary(messages: seq<ChatMessage>, summaryText: string, newer: seq<ChatMessage>)
    requires |messages| >= RECENT_MESSAGES_TO_KEEP
    ensures var c := Compressed(messages, summaryText) + newer;
      var older := c[..|c| - RECENT_MESSAGES_TO_KEEP];
      StartsWithSummary(older)
      && PreviousSummaryText(older[0].text) == Trim(summaryText)
      && CompressionPrompt(c) == SummaryPrompt(Some(older[0].text), older[1..])
  {
    var c := Compressed(messages, summaryText) + newer;
    var older := c[..|c| - RECENT_MESSAGES_TO_KEEP];
    assert older[0] == c[0];
    var text := SUMMARY_PREFIX + "\n" + summaryText;
    assert older[0].text == text;
    assert text[..|SUMMARY_PREFIX|] == SUMMARY_PREFIX;
    assert text[|SUMMARY_PREFIX|..] == "\n" + summaryText;
    assert ("\n" + summaryText)[1..] == summaryText;
    assert TrimLeft("\n" + summaryText) == TrimLeft(summaryText);
  }

  // ---------------------------------------------------------------------------
  // The update decision
  // ---------------------------------------------------------------------------

  /** The last summarisation of this memory was under five minutes ago. */
  predicate InCooldown(lastSummarized: Option<int>, now: int) {
    lastSummarized.Some? && now - lastSummarized.value < SUMMARIZATION_COOLDOWN_MS
  }

  /** What one `updateMessages` call does: the list handed to the
      delegate, the new cooldown time if any, and the summary prompt if the
      model was asked. */
  datatype Update = Update(stored: seq<ChatMessage>, summarizedAt: Option<int>, prompt: Option<string>)

  /** `reply` is the model's answer, or `None` when summarising threw. */
  function UpdateOf(messages: seq<ChatMessage>, lastSummarized: Option<int>, now: int, reply: Option<string>): (u: Update)
    ensures |messages| <= SUMMARIZATION_TRIGGER_SIZE ==> u == Update(messages, None, None)
    ensures InCooldown(lastSummarized, now) ==> u == Update(messages, None, None)
    ensures reply.None? ==> u.stored == messages && u.summarizedAt.None?
    ensures u.summarizedAt.Some? <==> |messages| > SUMMARIZATION_TRIGGER_SIZE && !InCooldown(lastSummarized, now) && reply.Some?
    ensures u.summarizedAt.Some? ==>
      u.summarizedAt == Some(now)
      && |u.stored| == RECENT_MESSAGES_TO_KEEP + 1
      && u.stored[0].SystemMessage? && StartsWith(u.stored[0].text, SUMMARY_PREFIX + "\n")
      && u.stored[1..] == messages[|messages| - RECENT_MESSAGES_TO_KEEP..]
    ensures u.summarizedAt.None? ==> u.stored == messages
    ensures u.prompt.Some? <==> |messages| > SUMMARIZATION_TRIGGER_SIZE && !InCooldown(lastSummarized, now)
  {
    if |messages| <= SUMMARIZATION_TRIGGER_SIZE || InCooldown(lastSummarized, now) then Update(messages, None, None)
    else
      var prompt := CompressionPrompt(messages);
      match reply
      case None => Update(messages, None, Some(prompt))
      case Some(text) => Update(Compressed(messages, text), Some(now), Some(prompt))
  }

  /** Storing a compressed list right away again leaves it as it is: the
      list is short, and the memory is in its cooldown. */
  lemma CompressedIsStable(messages: seq<ChatMessage>, last: Option<int>, now: int, reply: Option<string>, later: int, reply2: Option<string>)
    requires UpdateOf(messages, last, now, reply).summarizedAt.Some?
    ensures var u := UpdateOf(messages, last, now, reply);
      UpdateOf(u.stored, u.summarizedAt, later, reply2).stored == u.stored
  {
  }

  function LookupTime(m: map<int, int>, k: int): Option<int> {
    if k in m then Some(m[k]) else None
  }

  class SummarizingChatMemoryStore {
    /** The wrapped store, as a map from memory id to message list. */
    var memories: map<int, seq<ChatMessage>>
    /** `recentlySummarized`: memory id to the time of its last summary. */
    var recentlySummarized: map<int, int>

    constructor ()
      ensures memories == map[] && recentlySummarized == map[]
    {
      memories := map[];
      recentlySummarized := map[];
    }

    /** `getMessages`: what the wrapped store holds, nothing if absent. */
    function GetMessages(memoryId: int): (r: seq<ChatMessage>)
      reads this
      ensures memoryId !in memories ==> r == []
      ensures memoryId in memories ==> r == memories[memoryId]
    {
      if memoryId in memories then memories[memoryId] else []
    }

    /** `updateMessages` at time `now`; `reply` is the summarising model's
      answer, `None` when the call threw. Returns the prompt sent, if any. */
    method UpdateMessages(memoryId: int, messages: seq<ChatMessage>, now: int, reply: Option<string>) returns (prompt: Option<string>)
      modifies this
      ensures var u := UpdateOf(messages, LookupTime(old(recentlySummarized), memoryId), now, reply);
        memories == old(memories)[memoryId := u.stored]
        && recentlySummarized == (if u.summarizedAt.Some? then old(recentlySummarized)[memoryId := now] else old(recentlySummarized))
        && prompt == u.prompt
    {
      if |messages| <= SUMMARIZATION_TRIGGER_SIZE {
        memories := memories[memoryId := messages];
        return None;
      }
      if memoryId in recentlySummarized && now - recentlySummarized[memoryId] < SUMMARIZATION_COOLDOWN_MS {
        memories := memories[memoryId := messages];
        return None;
      }
      var compressed, p := CompressMessages(messages, if reply.Some? then reply.value else "");
      prompt := Some(p);
      if reply.Some? {
        memories := memories[memoryId := compressed];
        recentlySummarized := recentlySummarized[memoryId := now];
      } else {
        memories := memories[memoryId := messages];
      }
    }

    /** `deleteMessages`: the cooldown entry goes with the memory. */
    method DeleteMessages(memoryId: int)
      modifies this
      ensures recentlySummarized == old(recentlySummarized) - {memoryId}
      ensures memories == old(memories) - {memoryId}
    {
      recentlySummarized := recentlySummarized - {memoryId};
      memories := memories - {memoryId};
    }
  }
}
