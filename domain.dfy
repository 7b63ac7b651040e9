/** The persisted entities the agent services work on: agent definitions,
    conversation threads and their messages, and the generic row operations
    the three tables share. */
module Domain {
  import opened Wrappers

  /** Lifecycle of a conversation thread, stored by name in the `status` column. */
  datatype ThreadStatus = ACTIVE | ARCHIVED | DELETED

  /** A conversation thread. Times are instants on an abstract integer clock. */
  datatype AgentThread = AgentThread(
    id: int,
    agentId: int,
    userId: int,
    title: Option<string>,
    status: ThreadStatus,
    messageCount: Option<int>,
    totalTokensUsed: Option<int>,
    lastMessageAt: Option<int>,
    isDeleted: bool,
    createdAt: int)

  /** An agent definition. `userId`, `skillNames` and `parentThreadId` are the
      columns the services read and write on it. `isActive` may be null, and
      only a stored `true` makes a definition active. */
  datatype AgentDefinition = AgentDefinition(
    id: int,
    userId: int,
    name: string,
    displayName: Option<string>,
    description: Option<string>,
    systemPrompt: Option<string>,
    systemPromptRef: Option<string>,
    provider: Option<string>,
    modelName: Option<string>,
    toolNames: Option<string>,
    skillNames: Option<string>,
    memoryWindowSize: Option<int>,
    temperature: Option<real>,
    maxTokens: Option<int>,
    isActive: Option<bool>,
    parentThreadId: Option<int>)
  {
    /** `Boolean.TRUE.equals(isActive)`. */
    predicate IsActive() {
      isActive == Some(true)
    }
  }

  /** One stored chat message of a thread. */
  datatype AgentMessage = AgentMessage(
    id: int,
    threadId: int,
    role: string,
    content: string,
    toolName: Option<string>,
    tokenCount: int,
    createdAt: int)

  function ThreadId(t: AgentThread): int { t.id }
  function DefinitionId(d: AgentDefinition): int { d.id }
  function MessageId(m: AgentMessage): int { m.id }

  // ---------------------------------------------------------------------------
  // Rows of a table, keyed by a generated id
  // ---------------------------------------------------------------------------

  /** Rows are kept in insertion order; the id generator hands out increasing
      ids, all below `next`. */
  predicate IdsIncreasing<T>(rows: seq<T>, key: T -> int, next: int) {
    (forall i, j :: 0 <= i < j < |rows| ==> key(rows[i]) < key(rows[j]))
    && (forall i :: 0 <= i < |rows| ==> key(rows[i]) < next)
  }

  /** `selectById`: the row with that id, if any. */
  function Lookup<T>(rows: seq<T>, id: int, key: T -> int): (r: Option<T>)
    ensures r.Some? <==> exists i :: 0 <= i < |rows| && key(rows[i]) == id
    ensures r.Some? ==> r.value in rows && key(r.value) == id
  {
    if |rows| == 0 then None
    else if key(rows[0]) == id then Some(rows[0])
    else
      var rest := Lookup(rows[1..], id, key);
      assert forall i :: 1 <= i < |rows| ==> rows[i] == rows[1..][i - 1];
      rest
  }

  /** `updateById`: every row with the row's id is replaced by it. */
  function Replace<T>(rows: seq<T>, row: T, key: T -> int): (r: seq<T>)
    ensures |r| == |rows|
    ensures forall i :: 0 <= i < |rows| ==> r[i] == if key(rows[i]) == key(row) then row else rows[i]
  {
    seq(|rows|, i requires 0 <= i < |rows| => if key(rows[i]) == key(row) then row else rows[i])
  }

  /** Inserting a row under a fresh id keeps the ids increasing. */
  lemma AppendKeepsIdsIncreasing<T>(rows: seq<T>, row: T, key: T -> int, next: int)
    requires IdsIncreasing(rows, key, next)
    requires key(row) == next
    ensures IdsIncreasing(rows + [row], key, next + 1)
  {
  }

  /** A replacement that keeps the id keeps the ids increasing. */
  lemma ReplaceKeepsIdsIncreasing<T>(rows: seq<T>, row: T, key: T -> int, next: int)
    requires IdsIncreasing(rows, key, next)
    ensures IdsIncreasing(Replace(rows, row, key), key, next)
  {
  }

  /** With increasing ids the row found for an id is the only one with it, so
      replacing it and looking it up again yields the new row, and every other
      id still finds what it found before. */
  lemma LookupAfterReplace<T>(rows: seq<T>, row: T, key: T -> int, next: int, id: int)
    requires IdsIncreasing(rows, key, next)
    requires Lookup(rows, key(row), key).Some?
    ensures Lookup(Replace(rows, row, key), id, key)
      == if id == key(row) then Some(row) else Lookup(rows, id, key)
  {
    var r := Replace(rows, row, key);
    if id == key(row) {
      var k :| 0 <= k < |rows| && key(rows[k]) == id;
      assert key(r[k]) == id;
      var found := Lookup(r, id, key);
      var j :| 0 <= j < |r| && r[j] == found.value;
      assert key(rows[j]) == key(row);
    } else {
      LookupReplaceOther(rows, row, key, id);
    }
  }

  lemma {:induction false} LookupReplaceOther<T>(rows: seq<T>, row: T, key: T -> int, id: int)
    requires id != key(row)
    ensures Lookup(Replace(rows, row, key), id, key) == Lookup(rows, id, key)
  {
    if |rows| > 0 {
      var r := Replace(rows, row, key);
      assert r[1..] == Replace(rows[1..], row, key);
      LookupReplaceOther(rows[1..], row, key, id);
    }
  }

  /** With increasing ids a stored row is what a lookup of its id finds. */
  lemma LookupOfRow<T>(rows: seq<T>, row: T, key: T -> int, next: int)
    requires IdsIncreasing(rows, key, next)
    requires row in rows
    ensures Lookup(rows, key(row), key) == Some(row)
  {
    var found := Lookup(rows, key(row), key);
    var i :| 0 <= i < |rows| && rows[i] == row;
    assert found.Some?;
    var j :| 0 <= j < |rows| && rows[j] == found.value;
    assert key(rows[i]) == key(rows[j]);
  }

  /** A row appended under an id above every stored one is found under that
      id, and every other id finds what it found before. */
  lemma {:induction false} LookupAppendFresh<T>(rows: seq<T>, row: T, key: T -> int, id: int)
    requires forall i :: 0 <= i < |rows| ==> key(rows[i]) < key(row)
    ensures Lookup(rows + [row], id, key) == if id == key(row) then Some(row) else Lookup(rows, id, key)
  {
    if |rows| > 0 {
      assert (rows + [row])[1..] == rows[1..] + [row];
      LookupAppendFresh(rows[1..], row, key, id);
    }
  }
}
