/** The per-agent wrapper around a streaming chat model: it repairs the
    history sent to Gemini when an earlier tool call lost its thinking
    signature, and puts a listener that stamps the agent's request attributes
    in front of the wrapped model's listeners. */
module ScopedModel {
  import opened Wrappers
  import opened Strs
  import opened Messages

  const THINKING_SIGNATURE_KEY: string := "thinking_signature"

  /** The vendor the wrapped model reports. */
  datatype DelegateProvider = OPEN_AI | ANTHROPIC | GOOGLE_AI_GEMINI | OTHER

  /** A chat request: its message list, which may be null, and the rest of
      the request, which the wrapper passes through untouched. */
  datatype ChatRequest = ChatRequest(messages: Option<seq<ChatMessage>>, rest: string)

  // ---------------------------------------------------------------------------
  // Signature and visibility predicates
  // ---------------------------------------------------------------------------

  /** `isBlank`: null, or only whitespace. */
  predicate IsBlankText(v: Option<string>) {
    v.None? || IsBlank(v.value)
  }

  /** `hasMissingThinkingSignature`: no attribute map, no value (or a null
      value) under the signature key, or a blank string there. */
  predicate HasMissingThinkingSignature(attributes: Option<Attributes>) {
    attributes.None?
    || THINKING_SIGNATURE_KEY !in attributes.value
    || attributes.value[THINKING_SIGNATURE_KEY].None?
    || (attributes.value[THINKING_SIGNATURE_KEY].value.Text? && IsBlank(attributes.value[THINKING_SIGNATURE_KEY].value.text))
  }

  /** An AI message that asks for tools but carries no usable signature. */
  predicate NeedsStripping(m: ChatMessage) {
    m.AiMessage? && |m.toolRequests| > 0 && HasMissingThinkingSignature(m.attributes)
  }

  /** `hasVisibleContent`. */
  predicate HasVisibleContent(m: ChatMessage)
    requires m.AiMessage?
  {
    !IsBlankText(m.aiText) || !IsBlankText(m.thinking)
  }

  /** `copyAiMessageWithoutToolRequests`: nothing when the message shows
      nothing, else an AI message with the same attributes, no tool requests,
      and only the non-blank parts of its text and thinking. */
  function CopyWithoutToolRequests(m: ChatMessage): (r: Option<ChatMessage>)
    requires m.AiMessage?
    ensures r.None? <==> !HasVisibleContent(m)
    ensures r.Some? ==> r.value.AiMessage? && r.value.toolRequests == [] && r.value.attributes == m.attributes
    ensures r.Some? ==> (r.value.aiText.Some? <==> !IsBlankText(m.aiText)) && (r.value.aiText.Some? ==> r.value.aiText == m.aiText)
    ensures r.Some? ==> (r.value.thinking.Some? <==> !IsBlankText(m.thinking)) && (r.value.thinking.Some? ==> r.value.thinking == m.thinking)
    ensures r.Some? ==> !NeedsStripping(r.value)
  {
    if !HasVisibleContent(m) then None
    else
      Some(AiMessage(
        if IsBlankText(m.aiText) then None else m.aiText,
        if IsBlankText(m.thinking) then None else m.thinking,
        m.attributes, []))
  }

  /** What replaces a message that needs stripping: its copy, if any. */
  function Stripped(m: ChatMessage): seq<ChatMessage>
    requires m.AiMessage?
  {
    match CopyWithoutToolRequests(m)
    case None => []
    case Some(c) => [c]
  }

  // ---------------------------------------------------------------------------
  // The sanitising pass
  // ---------------------------------------------------------------------------

  /** The loop state of `sanitizeGeminiToolMessages`: the list built so far
      and the `changed` and `skipToolResults` flags. */
  datatype Pass = Pass(out: seq<ChatMessage>, changed: bool, skip: bool)

  /** One iteration of the loop. */
  function Step(p: Pass, m: ChatMessage): Pass {
    if p.skip && m.ToolExecutionResultMessage? then Pass(p.out, true, true)
    else if NeedsStripping(m) then Pass(p.out + Stripped(m), true, true)
    else Pass(p.out + [m], p.changed, false)
  }

  /** The loop run over a whole message list. */
  function Run(ms: seq<ChatMessage>): (r: Pass)
    ensures |r.out| <= |ms|
  {
    if |ms| == 0 then Pass([], false, false)
    else Step(Run(ms[..|ms| - 1]), ms[|ms| - 1])
  }

  /** `sanitizeGeminiToolMessages`: requests to other vendors, a null request
      and a null message list pass through; otherwise the pass runs and the
      request is rebuilt only if it changed something. */
  function Sanitize(provider: DelegateProvider, request: Option<ChatRequest>): (r: Option<ChatRequest>)
    ensures provider != GOOGLE_AI_GEMINI || request.None? || request.value.messages.None? ==> r == request
    ensures r.None? <==> request.None?
    ensures r.Some? ==> r.value.rest == request.value.rest && (r.value.messages.Some? <==> request.value.messages.Some?)
    ensures r.Some? && r.value.messages.Some? ==> |r.value.messages.value| <= |request.value.messages.value|
  {
    if provider != GOOGLE_AI_GEMINI || request.None? || request.value.messages.None? then request
    else
      var p := Run(request.value.messages.value);
      if !p.changed then request else Some(request.value.(messages := Some(p.out)))
  }

  // ---------------------------------------------------------------------------
  // A positional description of the pass
  // ---------------------------------------------------------------------------

  /** Message k is a tool result reached from a message that needs
      stripping through tool results only. */
  ghost predicate Skipped(ms: seq<ChatMessage>, k: int)
    requires 0 <= k < |ms|
  {
    ms[k].ToolExecutionResultMessage?
    && exists j :: 0 <= j < k && NeedsStripping(ms[j]) && forall i :: j < i < k ==> ms[i].ToolExecutionResultMessage?
  }

  /** What message k becomes: nothing when skipped, its copy when it needs
      stripping, itself otherwise. */
  ghost function Image(ms: seq<ChatMessage>, k: int): seq<ChatMessage>
    requires 0 <= k < |ms|
  {
    if Skipped(ms, k) then []
    else if NeedsStripping(ms[k]) then Stripped(ms[k])
    else [ms[k]]
  }

  /** The images of the first n messages, in message order. */
  ghost function Images(ms: seq<ChatMessage>, n: int): seq<ChatMessage>
    requires 0 <= n <= |ms|
  {
    if n == 0 then [] else Images(ms, n - 1) + Image(ms, n - 1)
  }

  /** Skipping continues exactly through a run of tool results. */
  lemma SkippedStep(ms: seq<ChatMessage>, k: int)
    requires 0 < k < |ms|
    ensures Skipped(ms, k) <==> ms[k].ToolExecutionResultMessage? && (NeedsStripping(ms[k - 1]) || Skipped(ms, k - 1))
  {
    if ms[k].ToolExecutionResultMessage? {
      if NeedsStripping(ms[k - 1]) {
        assert 0 <= k - 1 < k && NeedsStripping(ms[k - 1]);
      }
      if Skipped(ms, k - 1) {
        var j :| 0 <= j < k - 1 && NeedsStripping(ms[j]) && forall i :: j < i < k - 1 ==> ms[i].ToolExecutionResultMessage?;
        assert forall i :: j < i < k ==> ms[i].ToolExecutionResultMessage?;
      }
      if Skipped(ms, k) {
        var j :| 0 <= j < k && NeedsStripping(ms[j]) && forall i :: j < i < k ==> ms[i].ToolExecutionResultMessage?;
        if j < k - 1 {
          assert ms[k - 1].ToolExecutionResultMessage?;
          assert forall i :: j < i < k - 1 ==> ms[i].ToolExecutionResultMessage?;
        }
      }
    }
  }

  /** After n messages the skip flag is set exactly when the last one needed
      stripping or was itself skipped. */
  lemma {:induction false} SkipFlag(ms: seq<ChatMessage>, n: int)
    requires 0 <= n <= |ms|
    ensures Run(ms[..n]).skip <==> n > 0 && (NeedsStripping(ms[n - 1]) || Skipped(ms, n - 1))
  {
    if n > 0 {
      assert ms[..n][..n - 1] == ms[..n - 1];
      SkipFlag(ms, n - 1);
      if n > 1 {
        SkippedStep(ms, n - 1);
      }
    }
  }

  /** The loop builds exactly the images of the messages, in order. */
  lemma {:induction false} RunMatchesImages(ms: seq<ChatMessage>, n: int)
    requires 0 <= n <= |ms|
    ensures Run(ms[..n]).out == Images(ms, n)
  {
    if n > 0 {
      assert ms[..n][..n - 1] == ms[..n - 1];
      RunMatchesImages(ms, n - 1);
      SkipFlag(ms, n - 1);
      if n > 1 {
        SkippedStep(ms, n - 1);
      }
    }
  }

  /** `changed` is set exactly when some message needed stripping, and the
      skip flag is never set without it. */
  lemma {:induction false} RunChanged(ms: seq<ChatMessage>)
    ensures Run(ms).changed <==> exists k :: 0 <= k < |ms| && NeedsStripping(ms[k])
    ensures Run(ms).skip ==> Run(ms).changed
  {
    if |ms| > 0 {
      var init, last := ms[..|ms| - 1], ms[|ms| - 1];
      RunChanged(init);
      if k :| 0 <= k < |init| && NeedsStripping(init[k]) {
        assert NeedsStripping(ms[k]);
      }
      if k :| 0 <= k < |ms| && NeedsStripping(ms[k]) {
        if k < |init| {
          assert NeedsStripping(init[k]);
        }
      }
    }
  }

  /** Without a message to strip nothing is skipped and every message is its
      own image. */
  lemma {:induction false} ImagesOfCleanHistory(ms: seq<ChatMessage>, n: int)
    requires 0 <= n <= |ms|
    requires forall k :: 0 <= k < |ms| ==> !NeedsStripping(ms[k])
    ensures Images(ms, n) == ms[..n]
  {
    if n > 0 {
      ImagesOfCleanHistory(ms, n - 1);
      assert ms[..n] == ms[..n - 1] + [ms[n - 1]];
    }
  }

  /** For Gemini, the messages sent are the images of the history: tool
      results after a stripped message are gone, a stripped message is
      replaced by its copy or dropped, and every other message stays, in
      order. */
  lemma SanitizeGemini(request: ChatRequest)
    requires request.messages.Some?
    ensures var ms := request.messages.value;
      Sanitize(GOOGLE_AI_GEMINI, Some(request)) == Some(request.(messages := Some(Images(ms, |ms|))))
  {
    var ms := request.messages.value;
    assert ms[..|ms|] == ms;
    RunMatchesImages(ms, |ms|);
    RunChanged(ms);
    if !Run(ms).changed {
      ImagesOfCleanHistory(ms, |ms|);
    }
  }

  /** A history in which no tool-requesting AI message lacks its signature
      is sent as the very same request. */
  lemma CleanHistoryUntouched(provider: DelegateProvider, request: ChatRequest)
    requires request.messages.Some?
    requires forall k :: 0 <= k < |request.messages.value| ==> !NeedsStripping(request.messages.value[k])
    ensures Sanitize(provider, Some(request)) == Some(request)
  {
    RunChanged(request.messages.value);
  }

  // ---------------------------------------------------------------------------
  // Listeners and the fixed-attribute listener
  // ---------------------------------------------------------------------------

  /** `mergeAttributes` over values: the target keeps every entry it had,
      and gains each non-null fixed attribute it lacked. */
  function Merged(target: Attributes, attributes: Attributes): (r: Attributes)
    ensures forall k :: k in target ==> k in r && r[k] == target[k]
    ensures forall k :: k in r && k !in target ==> k in attributes && attributes[k].Some? && r[k] == attributes[k]
    ensures forall k :: k in attributes && attributes[k].Some? ==> k in r
  {
    map k | k in target.Keys + (set a | a in attributes && attributes[a].Some?) :: if k in target then target[k] else attributes[k]
  }

  /** The entries of `attributes` whose keys are in `ks`. */
  function Restrict(attributes: Attributes, ks: set<string>): Attributes {
    map k | k in attributes && k in ks :: attributes[k]
  }

  /** Restricting to one more key adds that key's entry. */
  lemma RestrictStep(attributes: Attributes, ks: set<string>, key: string)
    requires key in attributes
    ensures Restrict(attributes, ks + {key}) == Restrict(attributes, ks)[key := attributes[key]]
  {
  }

  /** Merging one more fixed attribute adds it exactly when it is non-null
      and the target lacks it. */
  lemma MergedStep(target: Attributes, done: Attributes, key: string, value: Option<AttributeValue>)
    requires key !in done
    ensures var current := Merged(target, done);
      Merged(target, done[key := value]) == if value.Some? && key !in current then current[key := value] else current
  {
  }

  /** The attribute map a listener's context carries, written in place. */
  class AttributeMap {
    var entries: Attributes

    constructor (entries: Attributes)
      ensures this.entries == entries
    {
      this.entries := entries;
    }
  }

  /** `FixedAttributesListener`: on request, response and error alike it
      merges its attributes into the context's map. */
  class FixedAttributesListener {
    const attributes: Attributes

    constructor (attributes: Attributes)
      ensures this.attributes == attributes
    {
      this.attributes := attributes;
    }

    /** `mergeAttributes`: a null target is left alone. */
    method MergeAttributes(target: AttributeMap?)
      modifies target
      ensures target != null ==> target.entries == Merged(old(target.entries), attributes)
    {
      if target == null || |attributes| == 0 {
        if target != null {
          assert Merged(target.entries, attributes) == target.entries;
        }
        return;
      }
      var todo := attributes.Keys;
      while todo != {}
        invariant todo <= attributes.Keys
        invariant target.entries == Merged(old(target.entries), Restrict(attributes, attributes.Keys - todo))
        decreases |todo|
      {
        var key :| key in todo;
        var value := attributes[key];
        RestrictStep(attributes, attributes.Keys - todo, key);
        assert attributes.Keys - (todo - {key}) == (attributes.Keys - todo) + {key};
        MergedStep(old(target.entries), Restrict(attributes, attributes.Keys - todo), key, value);
        if value.Some? && key !in target.entries {
          target.entries := target.entries[key := value];
        }
        todo := todo - {key};
      }
      assert Restrict(attributes, attributes.Keys) == attributes;
    }
  }

  /** A listener in the wrapped model's list, or the fixed-attribute
      listener the wrapper puts in front. */
  datatype Listener = Fixed(attributes: Attributes) | Delegated(name: string)

  /** Request attributes as an attribute map; none of them is null. */
  function AsAttributes(m: map<string, AttributeValue>): (r: Attributes)
    ensures r.Keys == m.Keys && forall k :: k in m ==> r[k] == Some(m[k])
  {
    map k | k in m :: Some(m[k])
  }

  class AgentScopedStreamingChatModel {
    const provider: DelegateProvider
    const delegateListeners: seq<Listener>
    const requestAttributes: map<string, AttributeValue>

    /** A null attribute map becomes the empty one. */
    constructor (provider: DelegateProvider, delegateListeners: seq<Listener>, requestAttributes: Option<map<string, AttributeValue>>)
      ensures this.provider == provider && this.delegateListeners == delegateListeners
      ensures this.requestAttributes == requestAttributes.GetOr(map[])
    {
      this.provider := provider;
      this.delegateListeners := delegateListeners;
      this.requestAttributes := requestAttributes.GetOr(map[]);
    }

    /** `listeners`: the wrapped model's list when there are no attributes,
      else the fixed-attribute listener first and then that list. */
    function Listeners(): (r: seq<Listener>)
      ensures |requestAttributes| == 0 ==> r == delegateListeners
      ensures |requestAttributes| > 0 ==>
        |r| == |delegateListeners| + 1 && r[0] == Fixed(AsAttributes(requestAttributes)) && r[1..] == delegateListeners
    {
      if |requestAttributes| == 0 then delegateListeners
      else [Fixed(AsAttributes(requestAttributes))] + delegateListeners
    }

    /** `sanitizeGeminiToolMessages`. */
    method SanitizeGeminiToolMessages(chatRequest: Option<ChatRequest>) returns (r: Option<ChatRequest>)
      ensures r == Sanitize(provider, chatRequest)
    {
      if provider != GOOGLE_AI_GEMINI || chatRequest.None? || chatRequest.value.messages.None? {
        return chatRequest;
      }
      var messages := chatRequest.value.messages.value;
      var changed := false;
      var skipToolResults := false;
      var sanitized: seq<ChatMessage> := [];
      var i := 0;
      while i < |messages|
        invariant 0 <= i <= |messages|
        invariant Pass(sanitized, changed, skipToolResults) == Run(messages[..i])
      {
        var message := messages[i];
        assert messages[..i + 1][..i] == messages[..i];
        if skipToolResults && message.ToolExecutionResultMessage? {
          changed := true;
        } else {
          skipToolResults := false;
          if message.AiMessage? && |message.toolRequests| > 0 && HasMissingThinkingSignature(message.attributes) {
            changed := true;
            skipToolResults := true;
            var copy := CopyWithoutToolRequests(message);
            if copy.Some? {
              sanitized := sanitized + [copy.value];
            }
          } else {
            sanitized := sanitized + [message];
          }
        }
        i := i + 1;
      }
      assert messages[..i] == messages;
      if !changed {
        return chatRequest;
      }
      r := Some(chatRequest.value.(messages := Some(sanitized)));
    }
  }
}
