/** A thrown exception as the list of its cause chain, outermost first, and the
    classifiers the chat services and the WebSocket handler run over it. */
module Causes {
  import opened Wrappers
  import opened Strs

  /** One throwable in a cause chain: its class's simple name, whether the
      class is an `IOException` (subclasses such as `SocketTimeoutException`
      included) and its message, which may be null. */
  datatype Frame = Frame(simpleName: string, isIOException: bool, message: Option<string>)

  /** A throwable and its causes: `chain[0]` is the exception itself and
      `chain[i + 1]` is `chain[i].getCause()`. */
  type Chain = c: seq<Frame> | |c| >= 1 witness [Frame("RuntimeException", false, None)]

  /** The text Java string concatenation produces for a possibly-null string. */
  function Text(m: Option<string>): string {
    match m
    case Some(s) => s
    case None => "null"
  }

  /** Whether the message, lower-cased, mentions any of the patterns. */
  predicate MessageMentions(f: Frame, patterns: seq<string>) {
    f.message.Some? && exists p :: p in patterns && Contains(ToLower(f.message.value), p)
  }

  // ---------------------------------------------------------------------------
  // Lead chat turn and WebSocket handler: rate limit by class name or message
  // ---------------------------------------------------------------------------

  predicate RateLimitFrame(f: Frame) {
    f.simpleName == "RateLimitException" || MessageMentions(f, ["rate_limit", "rate limit"])
  }

  /** The cursor walk over the chain: true at the first frame that is a rate
      limit, false once the chain is exhausted. */
  function IsRateLimitError(chain: seq<Frame>): (r: bool)
    ensures r <==> exists i :: 0 <= i < |chain| && RateLimitFrame(chain[i])
  {
    if |chain| == 0 then false
    else if RateLimitFrame(chain[0]) then true
    else
      var rest := IsRateLimitError(chain[1..]);
      assert forall i :: 1 <= i < |chain| ==> chain[i] == chain[1..][i - 1];
      rest
  }

  predicate TransientFrame(f: Frame) {
    f.isIOException
    || f.simpleName in {"ResourceAccessException", "ReadTimeoutException", "ConnectTimeoutException"}
    || MessageMentions(f, ["i/o error", "readtimeout", "timeout"])
  }

  /** The transient-network test: some frame is an I/O exception, has one of
      the three timeout class names, or mentions I/O errors or timeouts. */
  function IsTransientNetworkError(chain: seq<Frame>): (r: bool)
    ensures r <==> exists i :: 0 <= i < |chain| && TransientFrame(chain[i])
  {
    if |chain| == 0 then false
    else if TransientFrame(chain[0]) then true
    else
      var rest := IsTransientNetworkError(chain[1..]);
      assert forall i :: 1 <= i < |chain| ==> chain[i] == chain[1..][i - 1];
      rest
  }

  /** Retried by the Lead Agent: a rate limit or a transient network failure. */
  predicate IsRetryableError(chain: seq<Frame>) {
    IsRateLimitError(chain) || IsTransientNetworkError(chain)
  }

  // ---------------------------------------------------------------------------
  // Sub-agents: rate limit by class name only, innermost message
  // ---------------------------------------------------------------------------

  /** The sub-agent service's test: some frame's class is `RateLimitException`. */
  function IsRateLimitByName(chain: seq<Frame>): (r: bool)
    ensures r <==> exists i :: 0 <= i < |chain| && chain[i].simpleName == "RateLimitException"
  {
    if |chain| == 0 then false
    else if chain[0].simpleName == "RateLimitException" then true
    else
      var rest := IsRateLimitByName(chain[1..]);
      assert forall i :: 1 <= i < |chain| ==> chain[i] == chain[1..][i - 1];
      rest
  }

  /** The sub-agent test is narrower: every error it retries, the Lead Agent
      would retry too. */
  lemma RateLimitByNameIsNarrower(chain: seq<Frame>)
    requires IsRateLimitByName(chain)
    ensures IsRateLimitError(chain) && IsRetryableError(chain)
  {
    var i :| 0 <= i < |chain| && chain[i].simpleName == "RateLimitException";
    assert RateLimitFrame(chain[i]);
  }

  /** ... but not conversely: a provider error whose class is not
      `RateLimitException` but whose message says `rate_limit` (in any case)
      is retried by the Lead Agent and not by a sub-agent. */
  lemma RateLimitMessageOnlyForLead(f: Frame)
    requires f.simpleName != "RateLimitException"
    requires f.message.Some? && Contains(ToLower(f.message.value), "rate_limit")
    ensures IsRateLimitError([f]) && !IsRateLimitByName([f])
  {
    MentionIsRateLimit(f, "rate_limit");
    assert [f][0] == f;
  }

  /** A frame whose lower-cased message mentions one of the two patterns is a
      rate-limit frame. */
  lemma MentionIsRateLimit(f: Frame, p: string)
    requires p == "rate_limit" || p == "rate limit"
    requires f.message.Some? && Contains(ToLower(f.message.value), p)
    ensures RateLimitFrame(f)
  {
    assert p in ["rate_limit", "rate limit"];
  }

  const RATE_LIMIT_NOTICE: string := "Rate limit exceeded. The task will be retried automatically."

  /** The note stored for a failed sub-agent turn: the innermost cause's
      message, replaced by the fixed retry notice when it mentions
      `rate_limit` (case-sensitively), and the outer exception's simple name
      when the innermost message is null. */
  function ExtractErrorMessage(chain: Chain): (r: string)
    ensures var root := chain[|chain| - 1];
      && (root.message.Some? && Contains(root.message.value, "rate_limit") ==> r == RATE_LIMIT_NOTICE)
      && (root.message.Some? && !Contains(root.message.value, "rate_limit") ==> r == root.message.value)
      && (root.message.None? ==> r == chain[0].simpleName)
  {
    var root := chain[|chain| - 1];
    match root.message
    case Some(msg) => if Contains(msg, "rate_limit") then RATE_LIMIT_NOTICE else msg
    case None => chain[0].simpleName
  }

  // ---------------------------------------------------------------------------
  // Exponential backoff
  // ---------------------------------------------------------------------------

  /** `(long) Math.pow(2, n)` for the small exponents the retry loops use. */
  function Pow2(n: nat): (r: nat)
    ensures r >= 1
  {
    if n == 0 then 1 else 2 * Pow2(n - 1)
  }
}
