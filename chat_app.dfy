/** The lead agent's chat turn (`AgentChatAppServiceImpl`): the thread and
    definition checks, memory recovery from the message table, the
    per-thread task bus registry, the synchronous retry loop, and the
    streaming turn as a state machine driven by the token stream's
    callbacks. */
module ChatApp {
  import opened Wrappers
  import opened Strs
  import opened Domain
  import opened ResultCodes
  import opened Causes
  import opened Messages
  import opened MessageRepo
  import opened ThreadRepo
  import opened DefinitionRepo
  import opened StreamEvents
  import TaskBus
  import Factory
  import SubAgents
  import SubAgentTools

  const MAX_RATE_LIMIT_RETRIES: nat := 2
  const BASE_BACKOFF_MILLIS: nat := 2000
  /** `nextLong(300, 1200)`: the jitter's lower bound and its exclusive upper bound. */
  const JITTER_MIN: int := 300
  const JITTER_MAX: int := 1200

  /** The progress hint `"已派发 %d 个子Agent任务，正在处理中。请稍候，我会继续汇总结果。"`, in two parts. */
  const HINT_HEAD: string := "已派发 "
  const HINT_TAIL: string := " 个子Agent任务，正在处理中。请稍候，我会继续汇总结果。"

  // ---------------------------------------------------------------------------
  // Thread and definition checks
  // ---------------------------------------------------------------------------

  /** `validateAndGetThread`: a missing or DELETED thread is not found; only
      a live thread's owner is checked. */
  function CheckThread(threads: seq<AgentThread>, userId: int, threadId: int): (r: Result<AgentThread, BusinessException>)
    ensures r.Ok? ==> r.value in threads && r.value.id == threadId && r.value.status != DELETED && r.value.userId == userId
    ensures r.Err? ==> r.error == Biz(THREAD_NOT_FOUND) || r.error == Biz(THREAD_ACCESS_DENIED)
  {
    match Lookup(threads, threadId, ThreadId)
    case None => Err(Biz(THREAD_NOT_FOUND))
    case Some(t) =>
      if t.status == DELETED then Err(Biz(THREAD_NOT_FOUND))
      else if t.userId != userId then Err(Biz(THREAD_ACCESS_DENIED))
      else Ok(t)
  }

  /** With unique thread ids, the verdict in terms of the stored row: not
      found exactly when no live row has the id (a deleted thread of another
      user is not found, not denied), denied exactly when the live row
      belongs to someone else. */
  lemma CheckThreadSpec(threads: seq<AgentThread>, next: int, userId: int, threadId: int)
    requires IdsIncreasing(threads, ThreadId, next)
    ensures CheckThread(threads, userId, threadId) == Err(Biz(THREAD_NOT_FOUND)) <==>
      forall t :: t in threads && t.id == threadId ==> t.status == DELETED
    ensures CheckThread(threads, userId, threadId) == Err(Biz(THREAD_ACCESS_DENIED)) <==>
      exists t :: t in threads && t.id == threadId && t.status != DELETED && t.userId != userId
    ensures CheckThread(threads, userId, threadId).Ok? <==>
      exists t :: t in threads && t.id == threadId && t.status != DELETED && t.userId == userId
  {
    match Lookup(threads, threadId, ThreadId)
    case None =>
    case Some(t0) =>
      forall t | t in threads && t.id == threadId
        ensures t == t0
      {
        LookupOfRow(threads, t, ThreadId, next);
      }
  }

  /** `getAgentDefinition`: a missing definition is AGENT_NOT_FOUND. */
  function DefinitionOf(defs: seq<AgentDefinition>, agentId: int): (r: Result<AgentDefinition, BusinessException>)
    ensures r.Ok? ==> r.value in defs && r.value.id == agentId
    ensures r.Err? <==> forall d :: d in defs ==> d.id != agentId
    ensures r.Err? ==> r.error == Biz(AGENT_NOT_FOUND)
  {
    match Lookup(defs, agentId, DefinitionId)
    case None => Err(Biz(AGENT_NOT_FOUND))
    case Some(d) => Ok(d)
  }

  /** The thread and its agent's definition, once both checks pass. */
  datatype Admitted = Admitted(thread: AgentThread, definition: AgentDefinition)

  /** The two checks every turn starts with, in order. */
  function Admission(threads: seq<AgentThread>, defs: seq<AgentDefinition>, userId: int, threadId: int): (r: Result<Admitted, BusinessException>)
    ensures r.Ok? ==> (CheckThread(threads, userId, threadId) == Ok(r.value.thread)
                       && DefinitionOf(defs, r.value.thread.agentId) == Ok(r.value.definition))
    ensures CheckThread(threads, userId, threadId).Err? ==> r == Err(CheckThread(threads, userId, threadId).error)
  {
    match CheckThread(threads, userId, threadId)
    case Err(e) => Err(e)
    case Ok(thread) =>
      match DefinitionOf(defs, thread.agentId)
      case Err(e) => Err(e)
      case Ok(definition) => Ok(Admitted(thread, definition))
  }

  // ---------------------------------------------------------------------------
  // Memory recovery
  // ---------------------------------------------------------------------------

  /** A stored message the conversation memory keeps: a user or assistant turn. */
  predicate Dialogue(m: AgentMessage) {
    m.role == "user" || m.role == "assistant"
  }

  /** The chat message a stored row becomes; other roles are skipped. */
  function ChatOf(m: AgentMessage): (r: seq<ChatMessage>) {
    if m.role == "user" then [UserMessage(m.content)]
    else if m.role == "assistant" then [AiMessage(Some(m.content), None, None, [])]
    else []
  }

  /** The rows converted in order. */
  function Converted(ms: seq<AgentMessage>): (r: seq<ChatMessage>)
    ensures |r| <= |ms|
  {
    if |ms| == 0 then [] else Converted(ms[..|ms| - 1]) + ChatOf(ms[|ms| - 1])
  }

  /** Every converted message comes from a user or assistant row, with its text. */
  lemma {:induction false} ConvertedSources(ms: seq<AgentMessage>)
    ensures forall c :: c in Converted(ms) ==> exists m :: m in ms && Dialogue(m) && ChatOf(m) == [c]
  {
    if |ms| > 0 {
      var init, last := ms[..|ms| - 1], ms[|ms| - 1];
      ConvertedSources(init);
      assert ms == init + [last];
      forall c | c in Converted(ms)
        ensures exists m :: m in ms && Dialogue(m) && ChatOf(m) == [c]
      {
        if c in Converted(init) {
          var m :| m in init && Dialogue(m) && ChatOf(m) == [c];
          assert m in ms;
        } else {
          assert c in ChatOf(last);
          assert ChatOf(last) == [c];
        }
      }
    }
  }

  /** Nothing is converted exactly when no row is a user or assistant row. */
  lemma {:induction false} ConvertedEmpty(ms: seq<AgentMessage>)
    ensures Converted(ms) == [] <==> forall m :: m in ms ==> !Dialogue(m)
  {
    if |ms| > 0 {
      var init, last := ms[..|ms| - 1], ms[|ms| - 1];
      ConvertedEmpty(init);
      assert ms == init + [last];
      assert Converted(ms) == Converted(init) + ChatOf(last);
      assert ChatOf(last) == [] <==> !Dialogue(last);
      assert forall m :: m in ms ==> m in init || m == last;
    }
  }

  /** A window of user and assistant rows converts one for one, in order. */
  lemma {:induction false} ConvertedOneForOne(ms: seq<AgentMessage>)
    requires forall m :: m in ms ==> Dialogue(m)
    ensures |Converted(ms)| == |ms|
    ensures forall k :: 0 <= k < |ms| ==> [Converted(ms)[k]] == ChatOf(ms[k])
  {
    if |ms| > 0 {
      var init, last := ms[..|ms| - 1], ms[|ms| - 1];
      assert ms == init + [last];
      assert last in ms;
      ConvertedOneForOne(init);
      assert |ChatOf(last)| == 1;
    }
  }

  /** The loop of `recoverMemoryIfNeeded` that turns rows into chat messages. */
  method ConvertMessages(ms: seq<AgentMessage>) returns (chat: seq<ChatMessage>)
    ensures chat == Converted(ms)
  {
    chat := [];
    for i := 0 to |ms|
      invariant chat == Converted(ms[..i])
    {
      assert ms[..i + 1][..i] == ms[..i];
      match ms[i].role
      case "user" => chat := chat + [UserMessage(ms[i].content)];
      case "assistant" => chat := chat + [AiMessage(Some(ms[i].content), None, None, [])];
      case _ =>
    }
    assert ms[..|ms|] == ms;
  }

  /** What `recoverMemoryIfNeeded` writes to the cached memory, if anything:
      only when the cache is empty and the thread has messages, the latest
      window of the thread reversed into creation order and converted. */
  function Recovery(existing: seq<ChatMessage>, thread: AgentThread, definition: AgentDefinition,
                    rows: seq<AgentMessage>): Option<seq<ChatMessage>>
  {
    if existing != [] then None
    else if thread.messageCount.None? || thread.messageCount.value == 0 then None
    else
      var db := Latest(OfThread(rows, thread.id), ClampLimit(Factory.MemoryWindow(definition)));
      if db == [] then None
      else
        var chat := Converted(Reverse(db));
        if chat == [] then None else Some(chat)
  }

  /** The newest `n` messages of the thread, oldest first, where `n` is the
      memory window (the definition's, or 40) clamped to the query's limit. */
  function RecentWindow(rows: seq<AgentMessage>, thread: AgentThread, definition: AgentDefinition): (r: seq<AgentMessage>)
    ensures forall m :: m in r ==> m in rows && m.threadId == thread.id
  {
    var all := OfThread(rows, thread.id);
    var limit := ClampLimit(Factory.MemoryWindow(definition));
    var n := if limit <= |all| then limit else |all|;
    assert forall m :: m in all[|all| - n..] ==> m in all;
    all[|all| - n..]
  }

  /** Recovery in terms of the recent window: nothing for a filled cache or
      a thread without messages, else the window's dialogue when there is
      any. */
  lemma RecoveryOfWindow(existing: seq<ChatMessage>, thread: AgentThread, definition: AgentDefinition, rows: seq<AgentMessage>)
    ensures var chat := Converted(RecentWindow(rows, thread, definition));
      Recovery(existing, thread, definition, rows) ==
        if existing != [] || thread.messageCount.None? || thread.messageCount.value == 0 || chat == [] then None
        else Some(chat)
  {
    var all := OfThread(rows, thread.id);
    var limit := ClampLimit(Factory.MemoryWindow(definition));
    LatestReversed(all, limit);
    var w := RecentWindow(rows, thread, definition);
    assert Reverse(Latest(all, limit)) == w;
    if Latest(all, limit) == [] {
      assert w == [];
    }
  }

  /** Recovery acts only on an empty cache of a thread with messages; it
      restores the recent window in creation order, user and assistant rows
      only, and it restores something exactly when that window holds such a
      row. */
  lemma RecoverySpec(existing: seq<ChatMessage>, thread: AgentThread, definition: AgentDefinition, rows: seq<AgentMessage>)
    ensures existing != [] ==> Recovery(existing, thread, definition, rows).None?
    ensures thread.messageCount.None? || thread.messageCount == Some(0) ==> Recovery(existing, thread, definition, rows).None?
    ensures Recovery(existing, thread, definition, rows).Some? ==>
      Recovery(existing, thread, definition, rows).value == Converted(RecentWindow(rows, thread, definition))
    ensures existing == [] && thread.messageCount.Some? && thread.messageCount.value != 0 ==>
      (Recovery(existing, thread, definition, rows).Some? <==> exists m :: m in RecentWindow(rows, thread, definition) && Dialogue(m))
    ensures Recovery(existing, thread, definition, rows).Some? ==>
      forall c :: c in Recovery(existing, thread, definition, rows).value ==> c.UserMessage? || c.AiMessage?
  {
    RecoveryOfWindow(existing, thread, definition, rows);
    var w := RecentWindow(rows, thread, definition);
    ConvertedSources(w);
    ConvertedEmpty(w);
  }

  // ---------------------------------------------------------------------------
  // The synchronous retry loop
  // ---------------------------------------------------------------------------

  /** What the environment does during one synchronous `chatWithRetry`: the
      outcome of each of the three calls, the jitter drawn before each of the
      two possible sleeps, and whether that sleep is interrupted. */
  datatype LeadScript = LeadScript(attempts: seq<SubAgents.Attempt>, jitters: seq<int>, interrupted: seq<bool>)
  {
    predicate WellFormed() {
      && |attempts| == MAX_RATE_LIMIT_RETRIES + 1
      && |jitters| == MAX_RATE_LIMIT_RETRIES && |interrupted| == MAX_RATE_LIMIT_RETRIES
      && forall j :: 0 <= j < |jitters| ==> JITTER_MIN <= jitters[j] < JITTER_MAX
    }
  }

  /** A failure the lead retries: a rate limit or a transient network error
      anywhere in the cause chain. */
  predicate Retryable(a: SubAgents.Attempt) {
    a.Threw? && IsRetryableError(a.chain)
  }

  /** Call `k` failed retryably with retries left, and its sleep ran out. */
  predicate Retries(s: LeadScript, k: nat)
    requires s.WellFormed() && k <= MAX_RATE_LIMIT_RETRIES
  {
    k < MAX_RATE_LIMIT_RETRIES && Retryable(s.attempts[k]) && !s.interrupted[k]
  }

  /** The call, from `k` on, after which the loop returns or rethrows. */
  function FinalCall(s: LeadScript, k: nat): (r: nat)
    requires s.WellFormed() && k <= MAX_RATE_LIMIT_RETRIES
    ensures k <= r <= MAX_RATE_LIMIT_RETRIES
    ensures !Retries(s, r)
    ensures forall j :: k <= j < r ==> Retries(s, j)
    decreases MAX_RATE_LIMIT_RETRIES - k
  {
    if Retries(s, k) then FinalCall(s, k + 1) else k
  }

  /** The reply the loop returns, or the exception it rethrows. */
  function LeadResult(s: LeadScript): Result<string, Chain>
    requires s.WellFormed()
  {
    match s.attempts[FinalCall(s, 0)]
    case Replied(text) => Ok(text)
    case Threw(chain) => Err(chain)
  }

  /** `computeBackoffMillis`: `2^attempt * 2000` ms plus the jitter. */
  function BackoffMillis(attempt: nat, jitter: int): int {
    Pow2(attempt) * BASE_BACKOFF_MILLIS + jitter
  }

  /** The first `n` sleeps, in order. */
  function LeadBackoffs(jitters: seq<int>, n: nat): (r: seq<int>)
    requires n <= |jitters|
    ensures |r| == n
  {
    if n == 0 then [] else LeadBackoffs(jitters, n - 1) + [BackoffMillis(n - 1, jitters[n - 1])]
  }

  /** The sleeps begun: one per retried call, and one more when the final
      call's sleep was interrupted. */
  function SleepsStarted(s: LeadScript): (r: nat)
    requires s.WellFormed()
    ensures r <= MAX_RATE_LIMIT_RETRIES
  {
    var f := FinalCall(s, 0);
    if f < MAX_RATE_LIMIT_RETRIES && Retryable(s.attempts[f]) then f + 1 else f
  }

  /** `chatWithRetry` (synchronous): at most three calls; a retryable
      failure of one of the first two sleeps the backoff and tries again;
      any other failure, a failure of the third call or an interrupted sleep
      rethrows the call's exception. */
  method ChatWithRetry(s: LeadScript) returns (result: Result<string, Chain>, waits: seq<int>)
    requires s.WellFormed()
    ensures result == LeadResult(s)
    ensures waits == LeadBackoffs(s.jitters, SleepsStarted(s))
  {
    waits := [];
    var attempt := 0;
    while true
      invariant 0 <= attempt <= MAX_RATE_LIMIT_RETRIES
      invariant FinalCall(s, attempt) == FinalCall(s, 0)
      invariant waits == LeadBackoffs(s.jitters, attempt)
      decreases MAX_RATE_LIMIT_RETRIES - attempt
    {
      match s.attempts[attempt]
      case Replied(text) =>
        return Ok(text), waits;
      case Threw(chain) =>
        if !IsRetryableError(chain) || attempt >= MAX_RATE_LIMIT_RETRIES {
          return Err(chain), waits;
        }
        var waitMillis := Pow2(attempt) * BASE_BACKOFF_MILLIS + s.jitters[attempt];
        waits := waits + [waitMillis];
        if s.interrupted[attempt] {
          return Err(chain), waits;
        }
      attempt := attempt + 1;
    }
  }

  /** A sleep before retry `a + 1` lies in `[2^a * 2000 + 300, 2^a * 2000 + 1200)`. */
  predicate WaitsInRange(waits: seq<int>) {
    forall a :: 0 <= a < |waits| ==>
      Pow2(a) * BASE_BACKOFF_MILLIS + JITTER_MIN <= waits[a] < Pow2(a) * BASE_BACKOFF_MILLIS + JITTER_MAX
  }

  /** Every sleep is in its range, and each is longer than the one before. */
  lemma {:induction false} LeadBackoffsGrow(jitters: seq<int>, n: nat)
    requires n <= |jitters|
    requires forall j :: 0 <= j < |jitters| ==> JITTER_MIN <= jitters[j] < JITTER_MAX
    ensures WaitsInRange(LeadBackoffs(jitters, n))
    ensures forall a :: 0 <= a < n - 1 ==> LeadBackoffs(jitters, n)[a] < LeadBackoffs(jitters, n)[a + 1]
  {
    if n > 0 {
      LeadBackoffsGrow(jitters, n - 1);
      var r := LeadBackoffs(jitters, n);
      assert r == LeadBackoffs(jitters, n - 1) + [BackoffMillis(n - 1, jitters[n - 1])];
      if n > 1 {
        assert Pow2(n - 1) == 2 * Pow2(n - 2);
        assert r[n - 2] < Pow2(n - 2) * BASE_BACKOFF_MILLIS + JITTER_MAX;
      }
    }
  }

  /** The loop's outcome: at most three calls; a reply is a call that
      replied, reached only through retryable failures whose sleeps ran out;
      a failure is the final call's own exception; a failure that is not
      retryable ends the loop at once, without sleeping. */
  lemma LeadRetryOutcome(s: LeadScript)
    requires s.WellFormed()
    ensures FinalCall(s, 0) + 1 <= MAX_RATE_LIMIT_RETRIES + 1
    ensures forall k :: 0 <= k <= MAX_RATE_LIMIT_RETRIES && s.attempts[k].Replied? && (forall j :: 0 <= j < k ==> Retries(s, j)) ==>
      LeadResult(s) == Ok(s.attempts[k].text)
    ensures LeadResult(s).Ok? ==> exists k :: 0 <= k <= MAX_RATE_LIMIT_RETRIES && s.attempts[k] == SubAgents.Replied(LeadResult(s).value)
    ensures LeadResult(s).Err? ==> s.attempts[FinalCall(s, 0)] == SubAgents.Threw(LeadResult(s).error)
    ensures s.attempts[0].Threw? && !Retryable(s.attempts[0]) ==> LeadResult(s) == Err(s.attempts[0].chain) && SleepsStarted(s) == 0
    ensures SleepsStarted(s) == MAX_RATE_LIMIT_RETRIES ==> Retryable(s.attempts[MAX_RATE_LIMIT_RETRIES - 1])
  {
    var f := FinalCall(s, 0);
    forall k | 0 <= k <= MAX_RATE_LIMIT_RETRIES && s.attempts[k].Replied? && (forall j :: 0 <= j < k ==> Retries(s, j))
      ensures LeadResult(s) == Ok(s.attempts[k].text)
    {
      assert f == k;
    }
  }

  /** The lead retries a read timeout that a sub-agent's loop, which only
      looks for `RateLimitException` by name, rethrows at once. */
  lemma TimeoutRetriedOnlyByLead(m: string)
    ensures var chain := [Frame("SocketTimeoutException", true, Some(m))];
      Retryable(SubAgents.Threw(chain)) && !SubAgents.RateLimited(SubAgents.Threw(chain))
  {
    var chain := [Frame("SocketTimeoutException", true, Some(m))];
    assert TransientFrame(chain[0]);
    assert "SocketTimeoutException" != "RateLimitException";
  }

  // ---------------------------------------------------------------------------
  // The streaming turn
  // ---------------------------------------------------------------------------

  /** Where a streaming turn is: about to open the stream (first time or
      after a backoff), receiving callbacks, or done. */
  datatype Phase = Starting | Streaming | Finished

  /** What the subscriber receives: an event, the end of the stream, or its failure. */
  datatype Signal = Next(event: StreamEvent) | Completed | Errored(chain: Chain)

  /** The turn's state: the retry attempt, the text and thinking streamed so
      far, whether the subscriber cancelled, everything sent to it, and the
      sleeps begun. */
  datatype Turn = Turn(attempt: nat, phase: Phase, fullResponse: string, fullThinking: string,
                       cancelled: bool, signals: seq<Signal>, waits: seq<int>)

  const INITIAL: Turn := Turn(0, Starting, "", "", false, [], [])

  /** The completion a token stream reports: no AI message (a null response
      or a null message), or one whose text and thinking may each be null. */
  datatype Completion = NoMessage | Message(text: Option<string>, thinking: Option<string>)

  /** `extractCompletionText`. */
  function CompletionText(resp: Completion): string {
    match resp
    case NoMessage => ""
    case Message(text, _) => if text.None? then "" else Trim(text.value)
  }

  /** `extractCompletionThinking`. */
  function CompletionThinking(resp: Completion): string {
    match resp
    case NoMessage => ""
    case Message(_, thinking) => if thinking.None? then "" else Trim(thinking.value)
  }

  function ProgressHint(pendingCount: nat): string {
    HINT_HEAD + NatToString(pendingCount) + HINT_TAIL
  }

  /** The text of every event of one type sent so far, in order. */
  function Streamed(signals: seq<Signal>, kind: string): string {
    if |signals| == 0 then "" else Streamed(signals[..|signals| - 1], kind) + Piece(signals[|signals| - 1], kind)
  }

  function Piece(s: Signal, kind: string): string {
    if s.Next? && s.event.kind == kind then s.event.content else ""
  }

  lemma StreamedSnoc(signals: seq<Signal>, s: Signal, kind: string)
    ensures Streamed(signals + [s], kind) == Streamed(signals, kind) + Piece(s, kind)
  {
    assert (signals + [s])[..|signals|] == signals;
  }

  /** The stream ended: its last signal is the completion or the failure. */
  predicate Ended(signals: seq<Signal>) {
    |signals| > 0 && !signals[|signals| - 1].Next?
  }

  /** What every reachable turn satisfies: at most two retries; the buffers
      hold exactly the token and thinking texts sent; an end signal comes
      last and only once the turn is finished; one sleep per retry, plus one
      when an interrupted sleep ended the turn, each in its range. */
  predicate TurnInv(t: Turn) {
    && t.attempt <= MAX_RATE_LIMIT_RETRIES
    && t.fullResponse == Streamed(t.signals, TYPE_TOKEN)
    && t.fullThinking == Streamed(t.signals, TYPE_THINKING)
    && (forall i :: 0 <= i < |t.signals| - 1 ==> t.signals[i].Next?)
    && (t.phase == Finished <==> Ended(t.signals))
    && (t.phase != Finished ==> |t.waits| == t.attempt)
    && |t.waits| <= t.attempt + 1
    && WaitsInRange(t.waits)
  }

  /** One event sent to the subscriber. */
  function Emit(t: Turn, e: StreamEvent): Turn {
    t.(signals := t.signals + [Next(e)])
  }

  /** `canRetry`: a retryable error, nothing streamed yet, retries left. */
  predicate CanRetry(t: Turn, error: Chain) {
    IsRetryableError(error) && t.fullResponse == "" && t.attempt < MAX_RATE_LIMIT_RETRIES
  }

  /** A failure of the call that opens the stream, or of the stream: with a
      retryable error, nothing streamed yet and retries left, sleep the
      backoff and start again (or fail if the sleep is interrupted);
      otherwise the subscriber gets the error. */
  function OnFailure(t: Turn, error: Chain, jitter: int, interrupted: bool): Turn
  {
    if CanRetry(t, error) then
      var slept := t.(waits := t.waits + [BackoffMillis(t.attempt, jitter)]);
      if interrupted then slept.(phase := Finished, signals := t.signals + [Errored(error)])
      else slept.(attempt := t.attempt + 1, phase := Starting)
    else t.(phase := Finished, signals := t.signals + [Errored(error)])
  }

  /** `startStreamingWithRetry`: nothing once the subscriber cancelled;
      otherwise open the stream, or handle the call's failure. */
  function OnStart(t: Turn, failure: Option<Chain>, jitter: int, interrupted: bool): Turn
    requires t.phase == Starting
  {
    if t.cancelled then t
    else if failure.None? then t.(phase := Streaming)
    else OnFailure(t, failure.value, jitter, interrupted)
  }

  /** `onPartialResponse`: the token appended and sent. */
  function OnPartialResponse(t: Turn, token: string): Turn
    requires t.phase == Streaming
  {
    if t.cancelled then t else Emit(t.(fullResponse := t.fullResponse + token), TokenEvent(token))
  }

  /** `onPartialThinking`: a null or blank thinking text is dropped. */
  function OnPartialThinking(t: Turn, thinking: Option<string>): Turn
    requires t.phase == Streaming
  {
    if t.cancelled || thinking.None? || !HasText(thinking.value) then t
    else Emit(t.(fullThinking := t.fullThinking + thinking.value), ThinkingEvent(thinking.value))
  }

  /** `onError`. */
  function OnError(t: Turn, error: Chain, jitter: int, interrupted: bool): Turn
    requires t.phase == Streaming
  {
    if t.cancelled then t else OnFailure(t, error, jitter, interrupted)
  }

  /** `!isBlank()`. */
  predicate HasText(s: string) {
    !IsBlank(s)
  }

  /** The first half of `emitCompletionFallbackIfNeeded`: the completion's
      thinking when none was streamed. */
  function ThinkingFallback(t: Turn, resp: Completion): Turn
  {
    var thinking := CompletionThinking(resp);
    if t.fullThinking == "" && HasText(thinking)
    then Emit(t.(fullThinking := t.fullThinking + thinking), ThinkingEvent(thinking))
    else t
  }

  /** The second half: with no streamed text, the completion's text, or else
      the progress hint when the thread's bus has pending tasks. */
  function TextFallback(t: Turn, resp: Completion, pendingCount: nat): Turn
  {
    if t.fullResponse != "" then t
    else
      var text := CompletionText(resp);
      if HasText(text) then Emit(t.(fullResponse := t.fullResponse + text), TokenEvent(text))
      else if pendingCount > 0 then
        Emit(t.(fullResponse := t.fullResponse + ProgressHint(pendingCount)), TokenEvent(ProgressHint(pendingCount)))
      else t
  }

  /** `emitCompletionFallbackIfNeeded`. */
  function Fallback(t: Turn, resp: Completion, pendingCount: nat): Turn
  {
    TextFallback(ThinkingFallback(t, resp), resp, pendingCount)
  }

  /** `onCompleteResponse`: nothing once the subscriber cancelled;
      otherwise the fallback, then the end of the stream. */
  function OnComplete(t: Turn, resp: Completion, pendingCount: nat): Turn
    requires t.phase == Streaming
  {
    if t.cancelled then t
    else
      var f := Fallback(t, resp, pendingCount);
      f.(phase := Finished, signals := f.signals + [Completed])
  }

  /** The subscriber cancels. */
  function OnCancel(t: Turn): Turn {
    t.(cancelled := true)
  }

  /** The restart rule: the stream starts again exactly when the error is
      retryable, nothing has been streamed, retries are left and the sleep
      was not interrupted; otherwise the subscriber gets the error and the
      turn is over. */
  lemma RestartRule(t: Turn, error: Chain, jitter: int, interrupted: bool)
    ensures var r := OnFailure(t, error, jitter, interrupted);
      && (r.phase == Starting <==>
            IsRetryableError(error) && t.fullResponse == "" && t.attempt < MAX_RATE_LIMIT_RETRIES && !interrupted)
      && (r.phase == Starting ==> r.attempt == t.attempt + 1 && r.signals == t.signals)
      && (r.phase != Starting ==> r.phase == Finished && r.signals == t.signals + [Errored(error)] && r.attempt == t.attempt)
  {
  }

  /** The fallback's cases for the response text: streamed text is kept;
      with none, the completion's trimmed text when it is not blank, else
      the progress hint when tasks are pending, else still nothing. */
  lemma FallbackText(t: Turn, resp: Completion, pendingCount: nat)
    ensures var r := Fallback(t, resp, pendingCount);
      && (t.fullResponse != "" ==> r.fullResponse == t.fullResponse)
      && (t.fullResponse == "" && HasText(CompletionText(resp)) ==>
            r.fullResponse == CompletionText(resp) && |r.signals| > 0 && r.signals[|r.signals| - 1] == Next(TokenEvent(CompletionText(resp))))
      && (t.fullResponse == "" && !HasText(CompletionText(resp)) && pendingCount > 0 ==>
            r.fullResponse == ProgressHint(pendingCount) && |r.signals| > 0 && r.signals[|r.signals| - 1] == Next(TokenEvent(ProgressHint(pendingCount))))
      && (t.fullResponse == "" && !HasText(CompletionText(resp)) && pendingCount == 0 ==> r.fullResponse == "")
  {
  }

  /** The completion's thinking is used only when none was streamed, and the
      fallback only adds to what was sent. */
  lemma FallbackThinking(t: Turn, resp: Completion, pendingCount: nat)
    ensures var r := Fallback(t, resp, pendingCount);
      && r.fullThinking == (if t.fullThinking == "" && HasText(CompletionThinking(resp)) then CompletionThinking(resp) else t.fullThinking)
      && t.signals <= r.signals
  {
  }

  /** A cancelled turn ignores every callback. */
  lemma CancelledTurnIsInert(t: Turn, failure: Option<Chain>, error: Chain, token: string, thinking: Option<string>,
                             resp: Completion, pendingCount: nat, jitter: int, interrupted: bool)
    requires t.cancelled
    ensures t.phase == Starting ==> OnStart(t, failure, jitter, interrupted) == t
    ensures t.phase == Streaming ==>
      && OnPartialResponse(t, token) == t && OnPartialThinking(t, thinking) == t
      && OnError(t, error, jitter, interrupted) == t && OnComplete(t, resp, pendingCount) == t
  {
  }

  // Each step keeps the invariant.

  lemma EmitTokenKeepsInv(t: Turn, text: string)
    requires TurnInv(t) && t.phase == Streaming
    ensures TurnInv(Emit(t.(fullResponse := t.fullResponse + text), TokenEvent(text)))
  {
    StreamedSnoc(t.signals, Next(TokenEvent(text)), TYPE_TOKEN);
    StreamedSnoc(t.signals, Next(TokenEvent(text)), TYPE_THINKING);
  }

  lemma EmitThinkingKeepsInv(t: Turn, text: string)
    requires TurnInv(t) && t.phase == Streaming
    ensures TurnInv(Emit(t.(fullThinking := t.fullThinking + text), ThinkingEvent(text)))
  {
    StreamedSnoc(t.signals, Next(ThinkingEvent(text)), TYPE_TOKEN);
    StreamedSnoc(t.signals, Next(ThinkingEvent(text)), TYPE_THINKING);
  }

  lemma EndKeepsInv(t: Turn, s: Signal, waits: seq<int>)
    requires TurnInv(t) && t.phase != Finished && !s.Next?
    requires WaitsInRange(waits) && |waits| <= t.attempt + 1
    ensures TurnInv(t.(phase := Finished, signals := t.signals + [s], waits := waits))
  {
    StreamedSnoc(t.signals, s, TYPE_TOKEN);
    StreamedSnoc(t.signals, s, TYPE_THINKING);
  }

  lemma FailedKeepsInv(t: Turn, error: Chain, jitter: int, interrupted: bool)
    requires TurnInv(t) && t.phase != Finished && JITTER_MIN <= jitter < JITTER_MAX
    ensures TurnInv(OnFailure(t, error, jitter, interrupted))
  {
    if CanRetry(t, error) {
      var w := t.waits + [BackoffMillis(t.attempt, jitter)];
      assert WaitsInRange(w);
      if interrupted {
        EndKeepsInv(t, Errored(error), w);
      }
    } else {
      EndKeepsInv(t, Errored(error), t.waits);
    }
  }

  lemma ThinkingFallbackKeepsInv(t: Turn, resp: Completion)
    requires TurnInv(t) && t.phase == Streaming
    ensures TurnInv(ThinkingFallback(t, resp)) && ThinkingFallback(t, resp).phase == Streaming
  {
    var thinking := CompletionThinking(resp);
    if t.fullThinking == "" && HasText(thinking) {
      EmitThinkingKeepsInv(t, thinking);
    }
  }

  lemma TextFallbackKeepsInv(t: Turn, resp: Completion, pendingCount: nat)
    requires TurnInv(t) && t.phase == Streaming
    ensures TurnInv(TextFallback(t, resp, pendingCount)) && TextFallback(t, resp, pendingCount).phase == Streaming
  {
    if t.fullResponse == "" {
      var text := CompletionText(resp);
      if HasText(text) {
        EmitTokenKeepsInv(t, text);
      } else if pendingCount > 0 {
        EmitTokenKeepsInv(t, ProgressHint(pendingCount));
      }
    }
  }

  lemma FallbackKeepsInv(t: Turn, resp: Completion, pendingCount: nat)
    requires TurnInv(t) && t.phase == Streaming
    ensures TurnInv(Fallback(t, resp, pendingCount)) && Fallback(t, resp, pendingCount).phase == Streaming
  {
    ThinkingFallbackKeepsInv(t, resp);
    TextFallbackKeepsInv(ThinkingFallback(t, resp), resp, pendingCount);
  }

  lemma CompleteKeepsInv(t: Turn, resp: Completion, pendingCount: nat)
    requires TurnInv(t) && t.phase == Streaming
    ensures TurnInv(OnComplete(t, resp, pendingCount))
  {
    if !t.cancelled {
      FallbackKeepsInv(t, resp, pendingCount);
      EndKeepsInv(Fallback(t, resp, pendingCount), Completed, Fallback(t, resp, pendingCount).waits);
    }
  }

  lemma InitialInv()
    ensures TurnInv(INITIAL)
  {
  }

  /** One streaming turn: the attempt and the two buffers shared by the
      callbacks of `startStreamingWithRetry`, the subscriber's side, and the
      two tables the completion writes to. */
  class StreamTurn {
    const threadId: int
    const messages: AgentMessageRepository
    const threads: AgentThreadRepository
    var attempt: nat
    var phase: Phase
    var fullResponse: string
    var fullThinking: string
    var cancelled: bool
    var signals: seq<Signal>
    var waits: seq<int>

    function State(): Turn
      reads this
    {
      Turn(attempt, phase, fullResponse, fullThinking, cancelled, signals, waits)
    }

    ghost predicate Valid()
      reads this, messages, threads
    {
      messages.Valid() && threads.Valid() && TurnInv(State())
    }

    /** The `Flux.create` callback's fresh buffers, before the first start. */
    constructor (threadId: int, messages: AgentMessageRepository, threads: AgentThreadRepository)
      requires messages.Valid() && threads.Valid()
      ensures Valid() && State() == INITIAL
      ensures this.threadId == threadId && this.messages == messages && this.threads == threads
    {
      InitialInv();
      this.threadId := threadId;
      this.messages := messages;
      this.threads := threads;
      attempt, phase, fullResponse, fullThinking := 0, Starting, "", "";
      cancelled, signals, waits := false, [], [];
    }

    /** `startStreamingWithRetry` at the current attempt; `failure` is the
        exception `agent.chat` threw, if it did, and `jitter` and
        `interrupted` describe the sleep a retry would take. */
    method Begin(failure: Option<Chain>, jitter: int, interrupted: bool)
      requires Valid() && phase == Starting && JITTER_MIN <= jitter < JITTER_MAX
      modifies this
      ensures Valid()
      ensures State() == OnStart(old(State()), failure, jitter, interrupted)
    {
      if cancelled {
        return;
      }
      if failure.None? {
        phase := Streaming;
        return;
      }
      Fail(failure.value, jitter, interrupted);
    }

    /** The shared failure handling of the start and of `onError`. */
    method Fail(error: Chain, jitter: int, interrupted: bool)
      requires Valid() && phase != Finished && JITTER_MIN <= jitter < JITTER_MAX
      modifies this
      ensures Valid()
      ensures State() == OnFailure(old(State()), error, jitter, interrupted)
    {
      ghost var next := OnFailure(State(), error, jitter, interrupted);
      FailedKeepsInv(State(), error, jitter, interrupted);
      var canRetry := CanRetry(State(), error);
      if canRetry {
        var waitMillis := BackoffMillis(attempt, jitter);
        waits := waits + [waitMillis];
        if interrupted {
          Finish(Errored(error));
        } else {
          attempt := attempt + 1;
          phase := Starting;
        }
      } else {
        Finish(Errored(error));
      }
      assert State() == next;
    }

    /** The sink gets the end signal `s`. */
    method Finish(s: Signal)
      modifies this
      ensures State() == old(State()).(phase := Finished, signals := old(signals) + [s])
    {
      signals := signals + [s];
      phase := Finished;
    }

    /** `onPartialResponse`. */
    method PartialResponse(token: string)
      requires Valid() && phase == Streaming
      modifies this
      ensures Valid()
      ensures State() == OnPartialResponse(old(State()), token)
    {
      if cancelled {
        return;
      }
      EmitTokenKeepsInv(State(), token);
      fullResponse := fullResponse + token;
      signals := signals + [Next(TokenEvent(token))];
    }

    /** `onPartialThinking`; `None` stands for a null partial or a null text. */
    method PartialThinking(thinking: Option<string>)
      requires Valid() && phase == Streaming
      modifies this
      ensures Valid()
      ensures State() == OnPartialThinking(old(State()), thinking)
    {
      if cancelled || thinking.None? {
        return;
      }
      var thinkingText := thinking.value;
      if !HasText(thinkingText) {
        return;
      }
      EmitThinkingKeepsInv(State(), thinkingText);
      fullThinking := fullThinking + thinkingText;
      signals := signals + [Next(ThinkingEvent(thinkingText))];
    }

    /** `onError`. */
    method StreamError(error: Chain, jitter: int, interrupted: bool)
      requires Valid() && phase == Streaming && JITTER_MIN <= jitter < JITTER_MAX
      modifies this
      ensures Valid()
      ensures State() == OnError(old(State()), error, jitter, interrupted)
    {
      if cancelled {
        return;
      }
      Fail(error, jitter, interrupted);
    }

    /** `emitCompletionFallbackIfNeeded`; `pendingCount` is the pending count
        of the thread's bus, 0 when the thread has none. */
    method EmitCompletionFallback(resp: Completion, pendingCount: nat)
      requires Valid() && phase == Streaming
      modifies this
      ensures Valid()
      ensures State() == Fallback(old(State()), resp, pendingCount)
    {
      EmitThinkingFallback(resp);
      EmitTextFallback(resp, pendingCount);
    }

    method EmitThinkingFallback(resp: Completion)
      requires Valid() && phase == Streaming
      modifies this
      ensures Valid() && phase == Streaming
      ensures State() == ThinkingFallback(old(State()), resp)
    {
      ThinkingFallbackKeepsInv(State(), resp);
      if fullThinking == "" {
        var completionThinking := CompletionThinking(resp);
        if HasText(completionThinking) {
          fullThinking := fullThinking + completionThinking;
          signals := signals + [Next(ThinkingEvent(completionThinking))];
        }
      }
    }

    method EmitTextFallback(resp: Completion, pendingCount: nat)
      requires Valid() && phase == Streaming
      modifies this
      ensures Valid() && phase == Streaming
      ensures State() == TextFallback(old(State()), resp, pendingCount)
    {
      TextFallbackKeepsInv(State(), resp, pendingCount);
      if fullResponse == "" {
        var completionText := CompletionText(resp);
        if HasText(completionText) {
          fullResponse := fullResponse + completionText;
          signals := signals + [Next(TokenEvent(completionText))];
        } else if pendingCount > 0 {
          var progressHint := ProgressHint(pendingCount);
          fullResponse := fullResponse + progressHint;
          signals := signals + [Next(TokenEvent(progressHint))];
        }
      }
    }

    /** `onCompleteResponse`: unless the subscriber cancelled, the fallback,
        then the streamed text stored as the assistant message and the
        thread's count raised by one, then the end of the stream. The stored
        text is exactly the text of the token events sent. */
    method CompleteResponse(resp: Completion, pendingCount: nat, now: int)
      requires Valid() && phase == Streaming
      modifies this, messages, threads
      ensures Valid()
      ensures State() == OnComplete(old(State()), resp, pendingCount)
      ensures old(cancelled) ==> messages.rows == old(messages.rows) && threads.rows == old(threads.rows)
      ensures !old(cancelled) ==>
        && messages.rows == old(messages.rows) + [AgentMessage(old(messages.nextId), threadId, "assistant", Streamed(signals, TYPE_TOKEN), None, 0, now)]
        && threads.rows == Incremented(old(threads.rows), threadId, 1, now)
    {
      if cancelled {
        return;
      }
      CompleteKeepsInv(State(), resp, pendingCount);
      EmitCompletionFallback(resp, pendingCount);
      var _ := messages.Insert(AgentMessage(0, threadId, "assistant", fullResponse, None, 0, 0), now);
      threads.IncrementMessageCount(threadId, 1, now);
      StreamedSnoc(signals, Completed, TYPE_TOKEN);
      signals := signals + [Completed];
      phase := Finished;
    }

    /** The subscriber cancels. */
    method Cancel()
      requires Valid()
      modifies this
      ensures Valid()
      ensures State() == OnCancel(old(State()))
    {
      cancelled := true;
    }
  }

  // ---------------------------------------------------------------------------
  // The service
  // ---------------------------------------------------------------------------

  /** The user's message as `saveUserMessage` stores it (id and time are
      stamped by the table). */
  function UserRow(threadId: int, message: string): AgentMessage {
    AgentMessage(0, threadId, "user", message, None, 0, 0)
  }

  /** The reply as `saveAssistantMessage` stores it. */
  function AssistantRow(threadId: int, reply: string): AgentMessage {
    AgentMessage(0, threadId, "assistant", reply, None, 0, 0)
  }

  /** A synchronous turn stores its two messages in this order. */
  function LeadTurnRows(threadId: int, message: string, reply: string): seq<AgentMessage> {
    [UserRow(threadId, message), AssistantRow(threadId, reply)]
  }

  /** A synchronous turn extends the thread's history by exactly the message
      and then the reply, stamped with the next two ids. */
  lemma LeadTurnHistory(rows: seq<AgentMessage>, next: int, threadId: int, message: string, reply: string, now: int)
    ensures var added := Stamped(LeadTurnRows(threadId, message, reply), next, now);
      && OfThread(rows + added, threadId) == OfThread(rows, threadId) + added
      && added[0].role == "user" && added[0].content == message && added[0].id == next
      && added[1].role == "assistant" && added[1].content == reply && added[1].id == next + 1
  {
    assert LeadTurnRows(threadId, message, reply) == SubAgents.TurnMessages(threadId, message, Ok(reply));
    SubAgents.TurnHistory(rows, next, threadId, message, Ok(reply), now);
  }

  /** The cache after recovery: unchanged, or the thread's entry replaced by
      the recovered dialogue. */
  function Recovered(memory: map<int, seq<ChatMessage>>, thread: AgentThread, definition: AgentDefinition,
                     rows: seq<AgentMessage>): map<int, seq<ChatMessage>>
  {
    var existing := if thread.id in memory then memory[thread.id] else [];
    match Recovery(existing, thread, definition, rows)
    case None => memory
    case Some(chat) => memory[thread.id := chat]
  }

  /** The outcome of `chat`: the two checks, then building the agent (which
      fails only on an unsupported provider), then the retry loop. */
  function ChatOutcome(threads: seq<AgentThread>, defs: seq<AgentDefinition>, userId: int, threadId: int,
                       s: LeadScript): Result<string, SubAgents.ChatFailure>
    requires s.WellFormed()
  {
    match Admission(threads, defs, userId, threadId)
    case Err(e) => Err(SubAgents.Rejected(e))
    case Ok(a) =>
      match Factory.ResolveProvider(a.definition.provider)
      case Err(e) => Err(SubAgents.Rejected(e))
      case Ok(_) =>
        match LeadResult(s)
        case Ok(text) => Ok(text)
        case Err(chain) => Err(SubAgents.Failed(chain))
  }

  /** A reply needs a live thread of the caller and is the retry loop's
      reply; a thread that is missing or deleted is not found, a live one of
      another user is denied; a model failure is the loop's final error. */
  lemma ChatOutcomeSpec(threads: seq<AgentThread>, next: int, defs: seq<AgentDefinition>, userId: int, threadId: int, s: LeadScript)
    requires IdsIncreasing(threads, ThreadId, next) && s.WellFormed()
    ensures ChatOutcome(threads, defs, userId, threadId, s).Ok? ==>
      && (exists t :: t in threads && t.id == threadId && t.status != DELETED && t.userId == userId)
      && LeadResult(s) == Ok(ChatOutcome(threads, defs, userId, threadId, s).value)
    ensures (forall t :: t in threads && t.id == threadId ==> t.status == DELETED) ==>
      ChatOutcome(threads, defs, userId, threadId, s) == Err(SubAgents.Rejected(Biz(THREAD_NOT_FOUND)))
    ensures (exists t :: t in threads && t.id == threadId && t.status != DELETED && t.userId != userId) ==>
      ChatOutcome(threads, defs, userId, threadId, s) == Err(SubAgents.Rejected(Biz(THREAD_ACCESS_DENIED)))
    ensures ChatOutcome(threads, defs, userId, threadId, s).Err? && ChatOutcome(threads, defs, userId, threadId, s).error.Failed? ==>
      LeadResult(s) == Err(ChatOutcome(threads, defs, userId, threadId, s).error.chain)
  {
    CheckThreadSpec(threads, next, userId, threadId);
  }

  /** The lead chat service: the three tables (shared with the sub-agent
      service), the cached chat memory of each thread, and the bus of each
      thread whose agent may use sub-agents. */
  class ChatAppService {
    const subAgentService: SubAgents.SubAgentService
    const threads: AgentThreadRepository
    const definitions: AgentDefinitionRepository
    const messages: AgentMessageRepository
    /** The cached chat memory, by thread id; a missing entry is empty. */
    var memory: map<int, seq<ChatMessage>>
    /** `taskManagers`: one bus per thread. */
    var taskManagers: map<int, TaskBus.AsyncTaskManager>

    ghost predicate Valid()
      reads this, subAgentService, subAgentService.agentTypeRegistry, threads, definitions, messages, taskManagers.Values
    {
      && threads == subAgentService.threads && definitions == subAgentService.definitions
      && messages == subAgentService.messages
      && subAgentService.Valid()
      && forall m :: m in taskManagers.Values ==> m.Valid()
    }

    constructor (subAgentService: SubAgents.SubAgentService)
      requires subAgentService.Valid()
      ensures Valid() && memory == map[] && taskManagers == map[]
      ensures this.subAgentService == subAgentService
    {
      this.subAgentService := subAgentService;
      threads := subAgentService.threads;
      definitions := subAgentService.definitions;
      messages := subAgentService.messages;
      memory := map[];
      taskManagers := map[];
    }

    /** The cached memory of a thread. */
    function MemoryOf(threadId: int): seq<ChatMessage>
      reads this
    {
      if threadId in memory then memory[threadId] else []
    }

    /** The pending count of the thread's bus, 0 when it has none. */
    function PendingOf(threadId: int): nat
      reads this, taskManagers.Values
    {
      if threadId in taskManagers then |taskManagers[threadId].pending| else 0
    }

    /** `recoverMemoryIfNeeded`. */
    method RecoverMemoryIfNeeded(thread: AgentThread, definition: AgentDefinition)
      requires Valid()
      modifies this
      ensures Valid() && taskManagers == old(taskManagers)
      ensures memory == Recovered(old(memory), thread, definition, messages.rows)
    {
      var recovered := RecoveredDialogue(thread, definition);
      if recovered.Some? {
        memory := memory[thread.id := recovered.value];
      }
    }

    /** The reading half of `recoverMemoryIfNeeded`: the dialogue to cache,
        if any. */
    method RecoveredDialogue(thread: AgentThread, definition: AgentDefinition) returns (r: Option<seq<ChatMessage>>)
      requires Valid()
      ensures r == Recovery(MemoryOf(thread.id), thread, definition, messages.rows)
    {
      var existing := MemoryOf(thread.id);
      if existing != [] {
        return None;
      }
      if thread.messageCount.None? || thread.messageCount.value == 0 {
        return None;
      }
      var windowSize := Factory.MemoryWindow(definition);
      var dbMessages := messages.FindLatestByThreadId(thread.id, windowSize);
      if dbMessages == [] {
        return None;
      }
      var chatMessages := ConvertMessages(Reverse(dbMessages));
      r := if chatMessages != [] then Some(chatMessages) else None;
    }

    /** `buildExtraTools`: without the sub-agent tool the thread's bus is
        dropped and shut down; with it, the thread's bus (the same one on
        every turn, created on the first) is handed to a new tool. */
    method BuildExtraTools(definition: AgentDefinition, userId: int, threadId: int) returns (tools: seq<SubAgentTools.SubAgentTool>)
      requires Valid()
      modifies this, taskManagers.Values
      ensures Valid() && memory == old(memory)
      ensures !Factory.HasSubAgentTool(definition.toolNames) ==>
        && tools == [] && taskManagers == old(taskManagers) - {threadId}
        && (threadId in old(taskManagers) ==>
              old(taskManagers)[threadId].State() == TaskBus.ShutdownOn(old(taskManagers[threadId].State())))
      ensures Factory.HasSubAgentTool(definition.toolNames) ==>
        && threadId in taskManagers && taskManagers == old(taskManagers)[threadId := taskManagers[threadId]]
        && (threadId in old(taskManagers) ==> taskManagers[threadId] == old(taskManagers)[threadId])
        && (threadId !in old(taskManagers) ==> fresh(taskManagers[threadId]) && taskManagers[threadId].State() == TaskBus.EMPTY)
        && |tools| == 1 && fresh(tools[0]) && tools[0].Valid()
        && tools[0].userId == userId && tools[0].parentThreadId == threadId && tools[0].service == subAgentService
        && tools[0].taskManager == taskManagers[threadId] && !tools[0].hasProgressCallback
      ensures Factory.HasSubAgentTool(definition.toolNames) ==> unchanged(old(taskManagers.Values))
    {
      if !Factory.HasSubAgentTool(definition.toolNames) {
        DropTaskManager(threadId);
        return [];
      }
      var taskManager := TaskManagerFor(threadId);
      var subAgentTool := new SubAgentTools.SubAgentTool(userId, threadId, subAgentService, taskManager, false);
      tools := [subAgentTool];
    }

    /** `taskManagers.remove(threadId)`, shutting the removed bus down. */
    method DropTaskManager(threadId: int)
      requires Valid()
      modifies this, taskManagers.Values
      ensures Valid() && memory == old(memory)
      ensures taskManagers == old(taskManagers) - {threadId}
      ensures threadId in old(taskManagers) ==>
        old(taskManagers)[threadId].State() == TaskBus.ShutdownOn(old(taskManagers[threadId].State()))
    {
      if threadId in taskManagers {
        var removed := taskManagers[threadId];
        taskManagers := taskManagers - {threadId};
        removed.Shutdown();
      }
    }

    /** `taskManagers.computeIfAbsent(threadId, ...)`: the thread's bus,
        created empty on first use. */
    method TaskManagerFor(threadId: int) returns (taskManager: TaskBus.AsyncTaskManager)
      requires Valid()
      modifies this
      ensures Valid() && memory == old(memory) && taskManager.Valid()
      ensures taskManagers == old(taskManagers)[threadId := taskManager]
      ensures threadId in old(taskManagers) ==> taskManager == old(taskManagers)[threadId]
      ensures threadId !in old(taskManagers) ==> fresh(taskManager) && taskManager.State() == TaskBus.EMPTY
    {
      if threadId in taskManagers {
        taskManager := taskManagers[threadId];
      } else {
        taskManager := new TaskBus.AsyncTaskManager();
        taskManagers := taskManagers[threadId := taskManager];
      }
    }

    /** `shutdownTaskManagers`: every bus shut down once, then the registry
        cleared. */
    method ShutdownTaskManagers()
      requires Valid()
      modifies this, taskManagers.Values
      ensures Valid() && taskManagers == map[] && memory == old(memory)
      ensures forall m :: m in old(taskManagers.Values) ==> m.State() == TaskBus.ShutdownOn(old(m.State()))
    {
      ShutdownAll(taskManagers.Values);
      taskManagers := map[];
    }

    /** The loop of `shutdownTaskManagers` over the buses. */
    static method ShutdownAll(managers: set<TaskBus.AsyncTaskManager>)
      requires forall m :: m in managers ==> m.Valid()
      modifies managers
      ensures forall m :: m in managers ==> m.Valid() && m.State() == TaskBus.ShutdownOn(old(m.State()))
    {
      var rest := managers;
      while rest != {}
        invariant rest <= managers
        invariant forall m :: m in managers ==> m.Valid()
        invariant forall m :: m in rest ==> m.State() == old(m.State())
        invariant forall m :: m in managers && m !in rest ==> m.State() == TaskBus.ShutdownOn(old(m.State()))
        decreases rest
      {
        var manager :| manager in rest;
        manager.Shutdown();
        rest := rest - {manager};
      }
    }

    /** The part of `chat` before the agent is built: memory recovery, then
        the extra tools. */
    method Equip(thread: AgentThread, definition: AgentDefinition, userId: int)
      requires Valid()
      modifies this, taskManagers.Values
      ensures Valid()
      ensures memory == Recovered(old(memory), thread, definition, messages.rows)
      ensures thread.id in taskManagers <==> Factory.HasSubAgentTool(definition.toolNames)
    {
      RecoverMemoryIfNeeded(thread, definition);
      var extraTools := BuildExtraTools(definition, userId, thread.id);
    }

    /** Stores a synchronous turn: the message and the reply, then the
        thread's count raised by two, in one transaction. */
    method SaveTurn(threadId: int, message: string, reply: string, now: int)
      requires Valid()
      modifies messages, threads
      ensures Valid()
      ensures messages.rows == old(messages.rows) + Stamped(LeadTurnRows(threadId, message, reply), old(messages.nextId), now)
      ensures threads.rows == Incremented(old(threads.rows), threadId, 2, now)
    {
      var userId := messages.Insert(UserRow(threadId, message), now);
      var replyId := messages.Insert(AssistantRow(threadId, reply), now);
      threads.IncrementMessageCount(threadId, 2, now);
      assert Stamped(LeadTurnRows(threadId, message, reply), old(messages.nextId), now)
          == [UserRow(threadId, message).(id := userId, createdAt := now), AssistantRow(threadId, reply).(id := replyId, createdAt := now)];
    }

    /** `chat`: the checks, memory recovery, the extra tools, the agent, the
        retry loop; the turn is stored only when the model replied. */
    method Chat(userId: int, threadId: int, message: string, s: LeadScript, now: int)
        returns (r: Result<string, SubAgents.ChatFailure>, waits: seq<int>)
      requires Valid() && s.WellFormed()
      modifies this, taskManagers.Values, messages, threads
      ensures Valid()
      ensures r == ChatOutcome(old(threads.rows), old(definitions.rows), userId, threadId, s)
      ensures r.Ok? ==>
        && messages.rows == old(messages.rows) + Stamped(LeadTurnRows(threadId, message, r.value), old(messages.nextId), now)
        && threads.rows == Incremented(old(threads.rows), threadId, 2, now)
      ensures r.Err? ==> messages.rows == old(messages.rows) && threads.rows == old(threads.rows)
      ensures match Admission(old(threads.rows), old(definitions.rows), userId, threadId)
        case Err(_) => memory == old(memory) && taskManagers == old(taskManagers) && waits == []
        case Ok(a) =>
          && memory == Recovered(old(memory), a.thread, a.definition, old(messages.rows))
          && (threadId in taskManagers <==> Factory.HasSubAgentTool(a.definition.toolNames))
          && waits == (if Factory.ResolveProvider(a.definition.provider).Ok? then LeadBackoffs(s.jitters, SleepsStarted(s)) else [])
    {
      waits := [];
      var admitted := Admission(threads.rows, definitions.rows, userId, threadId);
      if admitted.Err? {
        return Err(SubAgents.Rejected(admitted.error)), waits;
      }
      r, waits := Converse(admitted.value.thread, admitted.value.definition, userId, message, s, now);
    }

    /** `chat` once the checks passed. */
    method Converse(thread: AgentThread, definition: AgentDefinition, userId: int, message: string, s: LeadScript, now: int)
        returns (r: Result<string, SubAgents.ChatFailure>, waits: seq<int>)
      requires Valid() && s.WellFormed()
      modifies this, taskManagers.Values, messages, threads
      ensures Valid()
      ensures r == match Factory.ResolveProvider(definition.provider)
        case Err(e) => Err(SubAgents.Rejected(e))
        case Ok(_) =>
          match LeadResult(s)
          case Ok(text) => Ok(text)
          case Err(chain) => Err(SubAgents.Failed(chain))
      ensures r.Ok? ==>
        && messages.rows == old(messages.rows) + Stamped(LeadTurnRows(thread.id, message, r.value), old(messages.nextId), now)
        && threads.rows == Incremented(old(threads.rows), thread.id, 2, now)
      ensures r.Err? ==> messages.rows == old(messages.rows) && threads.rows == old(threads.rows)
      ensures memory == Recovered(old(memory), thread, definition, old(messages.rows))
      ensures thread.id in taskManagers <==> Factory.HasSubAgentTool(definition.toolNames)
      ensures waits == (if Factory.ResolveProvider(definition.provider).Ok? then LeadBackoffs(s.jitters, SleepsStarted(s)) else [])
    {
      waits := [];
      Equip(thread, definition, userId);
      var provider := Factory.ResolveProvider(definition.provider);
      if provider.Err? {
        return Err(SubAgents.Rejected(provider.error)), waits;
      }
      var response;
      response, waits := ChatWithRetry(s);
      if response.Err? {
        return Err(SubAgents.Failed(response.error)), waits;
      }
      SaveTurn(thread.id, message, response.value, now);
      r := Ok(response.value);
    }

    /** `chatStream`: the checks and memory recovery, then the user's
        message stored with the count raised by one before the agent is
        built, then a fresh turn at its first attempt. */
    method ChatStream(userId: int, threadId: int, message: string, now: int) returns (r: Result<StreamTurn, SubAgents.ChatFailure>)
      requires Valid()
      modifies this, taskManagers.Values, messages, threads
      ensures Valid()
      ensures match Admission(old(threads.rows), old(definitions.rows), userId, threadId)
        case Err(e) =>
          && r == Err(SubAgents.Rejected(e))
          && messages.rows == old(messages.rows) && threads.rows == old(threads.rows) && memory == old(memory)
        case Ok(a) =>
          && messages.rows == old(messages.rows) + [UserRow(threadId, message).(id := old(messages.nextId), createdAt := now)]
          && threads.rows == Incremented(old(threads.rows), threadId, 1, now)
          && memory == Recovered(old(memory), a.thread, a.definition, old(messages.rows))
          && (Factory.ResolveProvider(a.definition.provider).Err? ==>
                r == Err(SubAgents.Rejected(Factory.ResolveProvider(a.definition.provider).error)))
          && (Factory.ResolveProvider(a.definition.provider).Ok? ==>
                && r.Ok? && fresh(r.value) && r.value.Valid() && r.value.State() == INITIAL
                && r.value.threadId == threadId && r.value.messages == messages && r.value.threads == threads)
    {
      var admitted := Admission(threads.rows, definitions.rows, userId, threadId);
      if admitted.Err? {
        return Err(SubAgents.Rejected(admitted.error));
      }
      r := OpenStream(admitted.value.thread, admitted.value.definition, userId, message, now);
    }

    /** `saveUserMessage` and the count raised by one, in one transaction. */
    method SaveUserMessage(threadId: int, message: string, now: int)
      requires Valid()
      modifies messages, threads
      ensures Valid()
      ensures messages.rows == old(messages.rows) + [UserRow(threadId, message).(id := old(messages.nextId), createdAt := now)]
      ensures threads.rows == Incremented(old(threads.rows), threadId, 1, now)
    {
      var _ := messages.Insert(UserRow(threadId, message), now);
      threads.IncrementMessageCount(threadId, 1, now);
    }

    /** The part of `chatStream` before the agent is built: memory recovery,
        then the user's message stored. */
    method Prologue(thread: AgentThread, definition: AgentDefinition, message: string, now: int)
      requires Valid()
      modifies this, messages, threads
      ensures Valid() && taskManagers == old(taskManagers)
      ensures messages.rows == old(messages.rows) + [UserRow(thread.id, message).(id := old(messages.nextId), createdAt := now)]
      ensures threads.rows == Incremented(old(threads.rows), thread.id, 1, now)
      ensures memory == Recovered(old(memory), thread, definition, old(messages.rows))
    {
      RecoverMemoryIfNeeded(thread, definition);
      SaveUserMessage(thread.id, message, now);
    }

    /** `chatStream` once the checks passed. */
    method OpenStream(thread: AgentThread, definition: AgentDefinition, userId: int, message: string, now: int)
        returns (r: Result<StreamTurn, SubAgents.ChatFailure>)
      requires Valid()
      modifies this, taskManagers.Values, messages, threads
      ensures Valid()
      ensures messages.rows == old(messages.rows) + [UserRow(thread.id, message).(id := old(messages.nextId), createdAt := now)]
      ensures threads.rows == Incremented(old(threads.rows), thread.id, 1, now)
      ensures memory == Recovered(old(memory), thread, definition, old(messages.rows))
      ensures Factory.ResolveProvider(definition.provider).Err? ==>
        r == Err(SubAgents.Rejected(Factory.ResolveProvider(definition.provider).error))
      ensures Factory.ResolveProvider(definition.provider).Ok? ==>
        && r.Ok? && fresh(r.value) && r.value.Valid() && r.value.State() == INITIAL
        && r.value.threadId == thread.id && r.value.messages == messages && r.value.threads == threads
    {
      Prologue(thread, definition, message, now);
      r := Launch(definition, userId, thread.id);
    }

    /** The part of `chatStream` after the user's message is stored: the
        extra tools, the agent, and a fresh turn. */
    method Launch(definition: AgentDefinition, userId: int, threadId: int) returns (r: Result<StreamTurn, SubAgents.ChatFailure>)
      requires Valid()
      modifies this, taskManagers.Values
      ensures Valid() && memory == old(memory)
      ensures threadId in taskManagers <==> Factory.HasSubAgentTool(definition.toolNames)
      ensures Factory.ResolveProvider(definition.provider).Err? ==>
        r == Err(SubAgents.Rejected(Factory.ResolveProvider(definition.provider).error))
      ensures Factory.ResolveProvider(definition.provider).Ok? ==>
        && r.Ok? && fresh(r.value) && r.value.Valid() && r.value.State() == INITIAL
        && r.value.threadId == threadId && r.value.messages == messages && r.value.threads == threads
    {
      var extraTools := BuildExtraTools(definition, userId, threadId);
      var provider := Factory.ResolveProvider(definition.provider);
      if provider.Err? {
        return Err(SubAgents.Rejected(provider.error));
      }
      var turn := new StreamTurn(threadId, messages, threads);
      r := Ok(turn);
    }

    /** The completion callback of a turn of this service: the fallback reads
        the pending count of the thread's bus. */
    method CompleteStream(turn: StreamTurn, resp: Completion, now: int)
      requires Valid() && turn.Valid() && turn.phase == Streaming
      requires turn.messages == messages && turn.threads == threads
      modifies turn, messages, threads
      ensures Valid() && turn.Valid()
      ensures turn.State() == OnComplete(old(turn.State()), resp, PendingOf(turn.threadId))
      ensures old(turn.cancelled) ==> messages.rows == old(messages.rows) && threads.rows == old(threads.rows)
      ensures !old(turn.cancelled) ==>
        && messages.rows == old(messages.rows) + [AssistantRow(turn.threadId, Streamed(turn.signals, TYPE_TOKEN)).(id := old(messages.nextId), createdAt := now)]
        && threads.rows == Incremented(old(threads.rows), turn.threadId, 1, now)
    {
      var pendingCount := 0;
      if turn.threadId in taskManagers {
        pendingCount := taskManagers[turn.threadId].PendingCount();
      }
      turn.CompleteResponse(resp, pendingCount, now);
    }
  }
}
