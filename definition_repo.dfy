/** The agent-definition table: lookup by id, the sub-agent lookup by parent
    thread, insert and update. */
module DefinitionRepo {
  import opened Wrappers
  import opened Domain

  /** The definitions created under one parent thread, in table order, active
      or not. */
  function WithParent(rows: seq<AgentDefinition>, parentThreadId: int): (r: seq<AgentDefinition>)
    ensures forall d :: d in r <==> d in rows && d.parentThreadId == Some(parentThreadId)
  {
    if |rows| == 0 then []
    else
      var last := rows[|rows| - 1];
      assert rows == rows[..|rows| - 1] + [last];
      WithParent(rows[..|rows| - 1], parentThreadId) + (if last.parentThreadId == Some(parentThreadId) then [last] else [])
  }

  class AgentDefinitionRepository {
    var rows: seq<AgentDefinition>
    var nextId: int

    ghost predicate Valid()
      reads this
    {
      IdsIncreasing(rows, DefinitionId, nextId)
    }

    constructor ()
      ensures Valid() && rows == [] && nextId == 1
    {
      rows := [];
      nextId := 1;
    }

    /** `findById`. */
    function FindById(id: int): (r: Option<AgentDefinition>)
      reads this
      ensures r.Some? ==> r.value in rows && r.value.id == id
      ensures r.None? ==> forall d :: d in rows ==> d.id != id
    {
      Lookup(rows, id, DefinitionId)
    }

    /** `findByParentThreadId`: every definition whose parent thread is the
        given one. */
    function FindByParentThreadId(parentThreadId: int): (r: seq<AgentDefinition>)
      reads this
      ensures forall d :: d in r <==> d in rows && d.parentThreadId == Some(parentThreadId)
    {
      WithParent(rows, parentThreadId)
    }

    /** `insert`: stored under a freshly generated id. */
    method Insert(d: AgentDefinition) returns (id: int)
      requires Valid()
      modifies this
      ensures Valid()
      ensures id == old(nextId) && nextId == old(nextId) + 1
      ensures rows == old(rows) + [d.(id := id)]
    {
      id := nextId;
      AppendKeepsIdsIncreasing(rows, d.(id := id), DefinitionId, nextId);
      rows := rows + [d.(id := id)];
      nextId := nextId + 1;
    }

    /** `update`: the stored row with the same id is replaced. */
    method Update(d: AgentDefinition)
      requires Valid()
      modifies this
      ensures Valid() && nextId == old(nextId)
      ensures rows == Replace(old(rows), d, DefinitionId)
    {
      ReplaceKeepsIdsIncreasing(rows, d, DefinitionId, nextId);
      rows := Replace(rows, d, DefinitionId);
    }
  }
}
