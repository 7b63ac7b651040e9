/** The thread table: lookups by id, the per-user listings that hide DELETED
    threads newest first, the latest-thread-per-agent query, and the message
    counter update. */
module ThreadRepo {
  import opened Wrappers
  import opened Domain

  // ---------------------------------------------------------------------------
  // Listing: filter, then order by createdAt descending
  // ---------------------------------------------------------------------------

  /** The listing filter: the user's threads, optionally of one agent, whose
      status is not DELETED. */
  predicate Listed(t: AgentThread, userId: int, agentId: Option<int>) {
    t.userId == userId
    && (agentId.Some? ==> t.agentId == agentId.value)
    && t.status != DELETED
  }

  /** The rows that pass the filter, in table order. */
  function Filtered(rows: seq<AgentThread>, userId: int, agentId: Option<int>): (r: seq<AgentThread>)
    ensures forall t :: t in r ==> t in rows && Listed(t, userId, agentId)
    ensures forall t :: t in rows && Listed(t, userId, agentId) ==> t in r
  {
    if |rows| == 0 then []
    else
      var last := rows[|rows| - 1];
      Filtered(rows[..|rows| - 1], userId, agentId) + (if Listed(last, userId, agentId) then [last] else [])
  }

  predicate NewestFirstOrder(s: seq<AgentThread>) {
    forall i, j :: 0 <= i < j < |s| ==> s[i].createdAt >= s[j].createdAt
  }

  /** Places a thread in a newest-first sequence before the first strictly
      older thread. */
  function InsertByAge(sorted: seq<AgentThread>, t: AgentThread): seq<AgentThread> {
    if |sorted| == 0 || t.createdAt >= sorted[0].createdAt then [t] + sorted
    else [sorted[0]] + InsertByAge(sorted[1..], t)
  }

  /** Insertion sort, newest first. */
  function NewestFirst(s: seq<AgentThread>): seq<AgentThread> {
    if |s| == 0 then [] else InsertByAge(NewestFirst(s[..|s| - 1]), s[|s| - 1])
  }

  lemma {:induction false} InsertByAgeCounts(sorted: seq<AgentThread>, t: AgentThread)
    ensures multiset(InsertByAge(sorted, t)) == multiset(sorted) + multiset{t}
  {
    if |sorted| > 0 && t.createdAt < sorted[0].createdAt {
      InsertByAgeCounts(sorted[1..], t);
      assert sorted == [sorted[0]] + sorted[1..];
    }
  }

  lemma {:induction false} InsertByAgeSorted(sorted: seq<AgentThread>, t: AgentThread)
    requires NewestFirstOrder(sorted)
    ensures NewestFirstOrder(InsertByAge(sorted, t))
  {
    if |sorted| > 0 && t.createdAt < sorted[0].createdAt {
      var rest := InsertByAge(sorted[1..], t);
      InsertByAgeSorted(sorted[1..], t);
      InsertByAgeCounts(sorted[1..], t);
      forall j | 0 <= j < |rest|
        ensures sorted[0].createdAt >= rest[j].createdAt
      {
        assert rest[j] in multiset(rest);
        assert rest[j] in multiset(sorted[1..]) || rest[j] == t;
      }
    }
  }

  /** The sort yields the same threads, newest first. */
  lemma {:induction false} NewestFirstSorts(s: seq<AgentThread>)
    ensures NewestFirstOrder(NewestFirst(s))
    ensures multiset(NewestFirst(s)) == multiset(s)
  {
    if |s| > 0 {
      NewestFirstSorts(s[..|s| - 1]);
      InsertByAgeSorted(NewestFirst(s[..|s| - 1]), s[|s| - 1]);
      InsertByAgeCounts(NewestFirst(s[..|s| - 1]), s[|s| - 1]);
      assert s == s[..|s| - 1] + [s[|s| - 1]];
    }
  }

  /** `findByUserId` (no agent) and `findByUserIdAndAgentId`: exactly the
      listed threads, each as often as stored, newest first. */
  function Listing(rows: seq<AgentThread>, userId: int, agentId: Option<int>): (r: seq<AgentThread>)
    ensures NewestFirstOrder(r)
    ensures multiset(r) == multiset(Filtered(rows, userId, agentId))
    ensures forall t :: t in r <==> t in rows && Listed(t, userId, agentId)
  {
    var f := Filtered(rows, userId, agentId);
    NewestFirstSorts(f);
    assert forall t :: t in NewestFirst(f) <==> t in multiset(NewestFirst(f));
    assert forall t :: t in f <==> t in multiset(f);
    NewestFirst(f)
  }

  // ---------------------------------------------------------------------------
  // Latest thread per agent
  // ---------------------------------------------------------------------------

  /** `MAX(id)` over the user's non-DELETED threads of one agent, if any. */
  function LatestId(rows: seq<AgentThread>, userId: int, agentId: int): (r: Option<int>)
    ensures r.Some? <==> exists t :: t in rows && Listed(t, userId, Some(agentId))
    ensures r.Some? ==> exists t :: t in rows && Listed(t, userId, Some(agentId)) && t.id == r.value
    ensures r.Some? ==> forall t :: t in rows && Listed(t, userId, Some(agentId)) ==> t.id <= r.value
  {
    if |rows| == 0 then None
    else
      var last := rows[|rows| - 1];
      var init := rows[..|rows| - 1];
      assert rows == init + [last];
      var before := LatestId(init, userId, agentId);
      if !Listed(last, userId, Some(agentId)) then before
      else if before.Some? && before.value >= last.id then before
      else Some(last.id)
  }

  // ---------------------------------------------------------------------------
  // Message counter
  // ---------------------------------------------------------------------------

  /** `COALESCE(message_count, 0) + delta`, with the last-message time set. */
  function Bumped(t: AgentThread, delta: int, at: int): AgentThread {
    t.(messageCount := Some(t.messageCount.GetOr(0) + delta), lastMessageAt := Some(at))
  }

  /** The rows after `incrementMessageCount`: a non-positive delta changes
      nothing, otherwise only the thread with that id is bumped. */
  function Incremented(rows: seq<AgentThread>, threadId: int, delta: int, at: int): (r: seq<AgentThread>)
    ensures |r| == |rows|
    ensures forall i :: 0 <= i < |rows| ==> r[i] == if delta > 0 && rows[i].id == threadId then Bumped(rows[i], delta, at) else rows[i]
  {
    if delta <= 0 then rows
    else seq(|rows|, i requires 0 <= i < |rows| => if rows[i].id == threadId then Bumped(rows[i], delta, at) else rows[i])
  }

  /** Two increments of one thread add up, and the later time wins. */
  lemma IncrementsCompose(rows: seq<AgentThread>, threadId: int, a: int, b: int, t1: int, t2: int)
    requires a > 0 && b > 0
    ensures Incremented(Incremented(rows, threadId, a, t1), threadId, b, t2) == Incremented(rows, threadId, a + b, t2)
  {
    var lhs := Incremented(Incremented(rows, threadId, a, t1), threadId, b, t2);
    var rhs := Incremented(rows, threadId, a + b, t2);
    forall i | 0 <= i < |rows|
      ensures lhs[i] == rhs[i]
    {
      if rows[i].id == threadId {
        assert Incremented(rows, threadId, a, t1)[i] == Bumped(rows[i], a, t1);
      }
    }
  }

  /** The counter of the incremented thread as later read back. */
  lemma IncrementedCount(rows: seq<AgentThread>, next: int, threadId: int, delta: int, at: int)
    requires IdsIncreasing(rows, ThreadId, next)
    requires delta > 0
    requires Lookup(rows, threadId, ThreadId).Some?
    ensures var before := Lookup(rows, threadId, ThreadId).value;
      Lookup(Incremented(rows, threadId, delta, at), threadId, ThreadId)
      == Some(before.(messageCount := Some(before.messageCount.GetOr(0) + delta), lastMessageAt := Some(at)))
  {
    var before := Lookup(rows, threadId, ThreadId).value;
    var bumped := Bumped(before, delta, at);
    assert Incremented(rows, threadId, delta, at) == Replace(rows, bumped, ThreadId);
    LookupAfterReplace(rows, bumped, ThreadId, next, threadId);
  }

  // ---------------------------------------------------------------------------
  // The repository
  // ---------------------------------------------------------------------------

  class AgentThreadRepository {
    var rows: seq<AgentThread>
    var nextId: int

    ghost predicate Valid()
      reads this
    {
      IdsIncreasing(rows, ThreadId, nextId)
    }

    constructor ()
      ensures Valid() && rows == [] && nextId == 1
    {
      rows := [];
      nextId := 1;
    }

    /** `findById`. */
    function FindById(id: int): (r: Option<AgentThread>)
      reads this
      ensures r.Some? ==> r.value in rows && r.value.id == id
      ensures r.None? ==> forall t :: t in rows ==> t.id != id
    {
      Lookup(rows, id, ThreadId)
    }

    /** `findByUserId`: the user's threads that are not DELETED, newest first. */
    function FindByUserId(userId: int): (r: seq<AgentThread>)
      reads this
      ensures NewestFirstOrder(r)
      ensures forall t :: t in r <==> t in rows && t.userId == userId && t.status != DELETED
    {
      Listing(rows, userId, None)
    }

    /** `findByUserIdAndAgentId`: the same listing restricted to one agent. */
    function FindByUserIdAndAgentId(userId: int, agentId: int): (r: seq<AgentThread>)
      reads this
      ensures NewestFirstOrder(r)
      ensures forall t :: t in r <==> t in rows && t.userId == userId && t.agentId == agentId && t.status != DELETED
    {
      Listing(rows, userId, Some(agentId))
    }

    /** `findLatestThreadIdsByAgentIds`: for each listed agent that has a
        non-DELETED thread of this user, the largest such thread id. */
    method FindLatestThreadIdsByAgentIds(userId: int, agentIds: seq<int>) returns (latest: map<int, int>)
      ensures forall a :: a in latest <==> a in agentIds && LatestId(rows, userId, a).Some?
      ensures forall a :: a in latest ==> Some(latest[a]) == LatestId(rows, userId, a)
    {
      if |agentIds| == 0 {
        return map[];
      }
      latest := map[];
      var i := 0;
      while i < |agentIds|
        invariant 0 <= i <= |agentIds|
        invariant forall a :: a in latest <==> a in agentIds[..i] && LatestId(rows, userId, a).Some?
        invariant forall a :: a in latest ==> Some(latest[a]) == LatestId(rows, userId, a)
      {
        var agentId := agentIds[i];
        var found := LatestId(rows, userId, agentId);
        if found.Some? {
          latest := latest[agentId := found.value];
        }
        assert agentIds[..i + 1] == agentIds[..i] + [agentId];
        i := i + 1;
      }
      assert agentIds[..i] == agentIds;
    }

    /** `insert`: the row is stored under a freshly generated id and the
        current time. */
    method Insert(t: AgentThread, now: int) returns (id: int)
      requires Valid()
      modifies this
      ensures Valid()
      ensures id == old(nextId) && nextId == old(nextId) + 1
      ensures rows == old(rows) + [t.(id := id, createdAt := now)]
    {
      id := nextId;
      AppendKeepsIdsIncreasing(rows, t.(id := id, createdAt := now), ThreadId, nextId);
      rows := rows + [t.(id := id, createdAt := now)];
      nextId := nextId + 1;
    }

    /** `update`: the stored row with the same id is replaced. */
    method Update(t: AgentThread)
      requires Valid()
      modifies this
      ensures Valid() && nextId == old(nextId)
      ensures rows == Replace(old(rows), t, ThreadId)
    {
      ReplaceKeepsIdsIncreasing(rows, t, ThreadId, nextId);
      rows := Replace(rows, t, ThreadId);
    }

    /** `incrementMessageCount`. */
    method IncrementMessageCount(threadId: int, delta: int, at: int)
      requires Valid()
      modifies this
      ensures Valid() && nextId == old(nextId)
      ensures rows == Incremented(old(rows), threadId, delta, at)
    {
      if delta <= 0 {
        return;
      }
      rows := Incremented(rows, threadId, delta, at);
    }
  }
}
