/** The message table: single and batch inserts, the clamped page and
    latest-window queries, and the per-thread count. Messages of a thread are
    ordered by insertion, which is creation order. */
module MessageRepo {
  import opened Domain

  const MAX_PAGE: int := 200

  /** `Math.max(1, Math.min(limit, 200))`. */
  function ClampLimit(limit: int): (r: int)
    ensures 1 <= r <= MAX_PAGE
    ensures 1 <= limit <= MAX_PAGE ==> r == limit
    ensures limit < 1 ==> r == 1
    ensures limit > MAX_PAGE ==> r == MAX_PAGE
  {
    if limit < 1 then 1 else if limit > MAX_PAGE then MAX_PAGE else limit
  }

  /** `Math.max(0, offset)`. */
  function ClampOffset(offset: int): (r: nat)
    ensures offset >= 0 ==> r == offset
    ensures offset < 0 ==> r == 0
  {
    if offset < 0 then 0 else offset
  }

  /** The messages of one thread in creation order. */
  function OfThread(rows: seq<AgentMessage>, threadId: int): (r: seq<AgentMessage>)
    ensures forall m :: m in r <==> m in rows && m.threadId == threadId
    ensures |r| <= |rows|
  {
    if |rows| == 0 then []
    else
      var last := rows[|rows| - 1];
      assert rows == rows[..|rows| - 1] + [last];
      OfThread(rows[..|rows| - 1], threadId) + (if last.threadId == threadId then [last] else [])
  }

  lemma OfThreadAppend(rows: seq<AgentMessage>, m: AgentMessage, threadId: int)
    ensures OfThread(rows + [m], threadId)
      == OfThread(rows, threadId) + (if m.threadId == threadId then [m] else [])
  {
    assert (rows + [m])[..|rows|] == rows;
  }

  /** `LIMIT limit OFFSET offset` over a sequence. */
  function Page<T>(s: seq<T>, offset: nat, limit: nat): (r: seq<T>)
    ensures |r| <= limit
    ensures offset <= |s| ==> r == s[offset..if offset + limit <= |s| then offset + limit else |s|]
    ensures offset > |s| ==> r == []
  {
    if offset >= |s| then []
    else if offset + limit <= |s| then s[offset..offset + limit]
    else s[offset..]
  }

  function Reverse<T>(s: seq<T>): (r: seq<T>)
    ensures |r| == |s|
    ensures forall k :: 0 <= k < |s| ==> r[k] == s[|s| - 1 - k]
  {
    if |s| == 0 then [] else [s[|s| - 1]] + Reverse(s[..|s| - 1])
  }

  /** The newest `limit` messages of a thread, newest first. */
  function Latest(s: seq<AgentMessage>, limit: nat): (r: seq<AgentMessage>)
    ensures |r| == if limit <= |s| then limit else |s|
    ensures forall k :: 0 <= k < |r| ==> r[k] == s[|s| - 1 - k]
  {
    var n := if limit <= |s| then limit else |s|;
    Reverse(s[|s| - n..])
  }

  /** Reversing the newest-first window gives back the tail of the thread in
      creation order. */
  lemma LatestReversed(s: seq<AgentMessage>, limit: nat)
    ensures var n := if limit <= |s| then limit else |s|;
      Reverse(Latest(s, limit)) == s[|s| - n..]
  {
  }

  function Stamped(ms: seq<AgentMessage>, firstId: int, now: int): (r: seq<AgentMessage>)
    ensures |r| == |ms|
    ensures forall k :: 0 <= k < |ms| ==> r[k] == ms[k].(id := firstId + k, createdAt := now)
  {
    seq(|ms|, k requires 0 <= k < |ms| => ms[k].(id := firstId + k, createdAt := now))
  }

  class AgentMessageRepository {
    var rows: seq<AgentMessage>
    var nextId: int

    ghost predicate Valid()
      reads this
    {
      IdsIncreasing(rows, MessageId, nextId)
    }

    constructor ()
      ensures Valid() && rows == [] && nextId == 1
    {
      rows := [];
      nextId := 1;
    }

    /** `insert`: appended under a fresh id and the current time. */
    method Insert(m: AgentMessage, now: int) returns (id: int)
      requires Valid()
      modifies this
      ensures Valid()
      ensures id == old(nextId) && nextId == old(nextId) + 1
      ensures rows == old(rows) + [m.(id := id, createdAt := now)]
    {
      id := nextId;
      AppendKeepsIdsIncreasing(rows, m.(id := id, createdAt := now), MessageId, nextId);
      rows := rows + [m.(id := id, createdAt := now)];
      nextId := nextId + 1;
    }

    /** `insertBatch`: each message once, in list order; an empty list
        inserts nothing. */
    method InsertBatch(ms: seq<AgentMessage>, now: int)
      requires Valid()
      modifies this
      ensures Valid()
      ensures nextId == old(nextId) + |ms|
      ensures rows == old(rows) + Stamped(ms, old(nextId), now)
    {
      if |ms| == 0 {
        return;
      }
      var i := 0;
      while i < |ms|
        invariant 0 <= i <= |ms|
        invariant Valid()
        invariant nextId == old(nextId) + i
        invariant rows == old(rows) + Stamped(ms[..i], old(nextId), now)
      {
        var _ := Insert(ms[i], now);
        assert Stamped(ms[..i + 1], old(nextId), now) == Stamped(ms[..i], old(nextId), now) + [ms[i].(id := old(nextId) + i, createdAt := now)];
        i := i + 1;
      }
      assert ms[..i] == ms;
    }

    /** `findByThreadId`: one page of the thread in creation order, with the
        limit clamped into [1, 200] and the offset to at least 0. */
    function FindByThreadId(threadId: int, limit: int, offset: int): (r: seq<AgentMessage>)
      reads this
      ensures |r| <= ClampLimit(limit)
      ensures forall m :: m in r ==> m in rows && m.threadId == threadId
      ensures var all := OfThread(rows, threadId);
        ClampOffset(offset) + |r| <= |all| || r == []
      ensures var all := OfThread(rows, threadId);
        forall k :: 0 <= k < |r| ==> r[k] == all[ClampOffset(offset) + k]
    {
      Page(OfThread(rows, threadId), ClampOffset(offset), ClampLimit(limit))
    }

    /** `findLatestByThreadId`: the newest messages of the thread, newest
        first, at most the clamped limit. */
    function FindLatestByThreadId(threadId: int, limit: int): (r: seq<AgentMessage>)
      reads this
      ensures var all := OfThread(rows, threadId);
        |r| == if ClampLimit(limit) <= |all| then ClampLimit(limit) else |all|
      ensures var all := OfThread(rows, threadId);
        forall k :: 0 <= k < |r| ==> r[k] == all[|all| - 1 - k]
    {
      Latest(OfThread(rows, threadId), ClampLimit(limit))
    }

    /** `countByThreadId`. */
    function CountByThreadId(threadId: int): (r: nat)
      reads this
      ensures r <= |rows|
      ensures r == 0 <==> forall m :: m in rows ==> m.threadId != threadId
    {
      var all := OfThread(rows, threadId);
      assert all != [] ==> all[0] in all;
      |all|
    }
  }

  /** Storing a message raises its thread's count by one and leaves every
      other thread's count alone. */
  lemma CountAfterInsert(rows: seq<AgentMessage>, m: AgentMessage, threadId: int)
    ensures |OfThread(rows + [m], threadId)|
      == |OfThread(rows, threadId)| + (if m.threadId == threadId then 1 else 0)
  {
    OfThreadAppend(rows, m, threadId);
  }
}
