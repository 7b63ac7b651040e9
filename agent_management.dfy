/** Lead Agent management: the owner check on a definition, plain creation,
    the atomic creation of a Lead Agent with its first thread, and soft
    deletion, which for a Lead Agent first destroys the sub-agent team of
    every thread it still has. */
module AgentManagement {
  import opened Wrappers
  import opened Strs
  import opened Domain
  import opened ResultCodes
  import opened Providers
  import opened ThreadRepo
  import opened DefinitionRepo
  import Factory
  import SubAgents
  import ChatApp

  const LEAD_AGENT_PROMPT_REF: string := "agents/lead-designer.txt"
  const LEAD_AGENT_TOOL_NAMES: string := "subAgentTool"
  const LEAD_MEMORY_WINDOW: int := 20
  const LEAD_TEMPERATURE: real := 0.7
  const LEAD_MAX_TOKENS: int := 32768
  const NEW_THREAD_TITLE: string := "New Chat"
  const UNSUPPORTED_PROVIDER: string := "不支持的模型供应商"

  /** `listAgents`: `findByUserId`, the user's enabled definitions in table
      order, so a deleted (deactivated) agent is no longer listed. */
  function OfUser(rows: seq<AgentDefinition>, userId: int): (r: seq<AgentDefinition>)
    ensures forall d :: d in r <==> d in rows && d.userId == userId && d.IsActive()
    ensures |r| <= |rows|
  {
    if |rows| == 0 then []
    else
      var last := rows[|rows| - 1];
      assert rows == rows[..|rows| - 1] + [last];
      OfUser(rows[..|rows| - 1], userId) + (if last.userId == userId && last.IsActive() then [last] else [])
  }

  /** `getAgent`: a missing definition is AGENT_NOT_FOUND, another user's is
      AGENT_ACCESS_DENIED; an inactive one is still returned. */
  function GetAgent(defs: seq<AgentDefinition>, userId: int, id: int): (r: Result<AgentDefinition, BusinessException>)
    ensures r.Ok? ==> r.value in defs && r.value.id == id && r.value.userId == userId
    ensures r == Err(Biz(AGENT_NOT_FOUND)) <==> forall d :: d in defs ==> d.id != id
    ensures r.Err? ==> r.error == Biz(AGENT_NOT_FOUND) || r.error == Biz(AGENT_ACCESS_DENIED)
  {
    match Lookup(defs, id, DefinitionId)
    case None => Err(Biz(AGENT_NOT_FOUND))
    case Some(d) => if d.userId != userId then Err(Biz(AGENT_ACCESS_DENIED)) else Ok(d)
  }

  /** With unique ids, denial means the stored row is someone else's. */
  lemma GetAgentDenied(defs: seq<AgentDefinition>, next: int, userId: int, id: int)
    requires IdsIncreasing(defs, DefinitionId, next)
    ensures GetAgent(defs, userId, id) == Err(Biz(AGENT_ACCESS_DENIED)) <==>
      exists d :: d in defs && d.id == id && d.userId != userId
  {
    forall d | d in defs && d.id == id
      ensures Lookup(defs, id, DefinitionId) == Some(d)
    {
      LookupOfRow(defs, d, DefinitionId, next);
    }
  }

  /** `parseProvider`: `valueOf(provider.toUpperCase())`, any failure being
      PARAM_VALIDATION_FAILED. */
  function ParseProvider(provider: string): (r: Result<ModelProvider, BusinessException>)
    ensures forall p: ModelProvider :: r == Ok(p) <==> ToUpper(provider) == p.Name()
    ensures r.Err? ==> r.error == BizMsg(PARAM_VALIDATION_FAILED, UNSUPPORTED_PROVIDER)
  {
    match ParseIgnoreCase(Some(provider))
    case Some(p) => Ok(p)
    case None => Err(BizMsg(PARAM_VALIDATION_FAILED, UNSUPPORTED_PROVIDER))
  }

  /** The Lead Agent `createAgentWithThread` stores (before the table gives
      it an id): named provider, model and the first eight characters of a
      random UUID (`uuidPrefix`), with the sub-agent tool. */
  function LeadAgent(userId: int, p: ModelProvider, modelName: string, displayName: Option<string>,
                     uuidPrefix: string): AgentDefinition
  {
    AgentDefinition(
      0, userId, p.Value() + "-" + modelName + "-" + uuidPrefix,
      Some(displayName.GetOr(modelName)), None, None, Some(LEAD_AGENT_PROMPT_REF),
      Some(p.Value()), Some(modelName), Some(LEAD_AGENT_TOOL_NAMES), None,
      Some(LEAD_MEMORY_WINDOW), Some(LEAD_TEMPERATURE), Some(LEAD_MAX_TOKENS), Some(true), None)
  }

  /** Its first thread (before the table gives it an id and a time). */
  function LeadThread(userId: int, agentId: int): AgentThread {
    AgentThread(0, agentId, userId, Some(NEW_THREAD_TITLE), ACTIVE, Some(0), Some(0), None, false, 0)
  }

  /** The tool list of a Lead Agent holds the sub-agent tool. */
  lemma LeadAgentTools(userId: int, p: ModelProvider, modelName: string, displayName: Option<string>, uuidPrefix: string)
    ensures Factory.HasSubAgentTool(LeadAgent(userId, p, modelName, displayName, uuidPrefix).toolNames)
  {
    Factory.SubAgentToolAlone();
  }

  /** A Lead Agent is built the way agent assembly reads it back: its stored
      provider resolves to the parsed vendor, it carries the sub-agent tool,
      its memory window is 20, and it is an active Lead Agent (no parent
      thread). */
  lemma LeadAgentShape(userId: int, p: ModelProvider, modelName: string, displayName: Option<string>, uuidPrefix: string)
    ensures var d := LeadAgent(userId, p, modelName, displayName, uuidPrefix);
      && d.name == p.Value() + "-" + modelName + "-" + uuidPrefix
      && Factory.ResolveProvider(d.provider) == Ok(p)
      && Factory.HasSubAgentTool(d.toolNames)
      && Factory.MemoryWindow(d) == 20
      && d.IsActive() && d.parentThreadId.None? && d.userId == userId
      && d.displayName == Some(if displayName.Some? then displayName.value else modelName)
  {
    ParsesOwnSpellings(p);
    LeadAgentTools(userId, p, modelName, displayName, uuidPrefix);
  }

  /** The Lead Agent and its thread after both inserts. */
  datatype AgentWithThread = AgentWithThread(agent: AgentDefinition, thread: AgentThread)

  /** A Lead Agent and thread just created pass the checks that open every
      chat turn: the thread is the caller's, live, and bound to the agent. */
  lemma CreatedLeadIsAdmitted(threads: seq<AgentThread>, tn: int, defs: seq<AgentDefinition>, dn: int,
                              userId: int, p: ModelProvider, modelName: string, displayName: Option<string>,
                              uuidPrefix: string, now: int)
    requires IdsIncreasing(threads, ThreadId, tn) && IdsIncreasing(defs, DefinitionId, dn)
    ensures var agent := LeadAgent(userId, p, modelName, displayName, uuidPrefix).(id := dn);
      var thread := LeadThread(userId, dn).(id := tn, createdAt := now);
      ChatApp.Admission(threads + [thread], defs + [agent], userId, tn) == Ok(ChatApp.Admitted(thread, agent))
  {
    var agent := LeadAgent(userId, p, modelName, displayName, uuidPrefix).(id := dn);
    var thread := LeadThread(userId, dn).(id := tn, createdAt := now);
    LookupAppendFresh(threads, thread, ThreadId, tn);
    LookupAppendFresh(defs, agent, DefinitionId, dn);
  }

  // ---------------------------------------------------------------------------
  // Deletion
  // ---------------------------------------------------------------------------

  /** The loop of `deleteAgent`: the team of each lead thread destroyed in
      turn; the first failure stops it. */
  function DestroyTeams(t: SubAgents.Tables, userId: int, leadThreads: seq<AgentThread>): SubAgents.Cascade
    decreases |leadThreads|
  {
    if |leadThreads| == 0 then SubAgents.Cascade(t, None)
    else
      var c := SubAgents.DestroyAll(t, userId, leadThreads[0].id);
      if c.failure.Some? then c else DestroyTeams(c.tables, userId, leadThreads[1..])
  }

  /** The team cascade of `deleteAgent`: only a Lead Agent (no parent
      thread) has teams, one per thread the listing returns. */
  function AgentTeams(t: SubAgents.Tables, userId: int, agent: AgentDefinition): SubAgents.Cascade {
    if agent.parentThreadId.None? then DestroyTeams(t, userId, Listing(t.threads, userId, Some(agent.id)))
    else SubAgents.Cascade(t, None)
  }

  /** The end of the transaction: a failure rolls back to `t`, otherwise
      the definition is stored inactive. */
  function Deactivate(t: SubAgents.Tables, c: SubAgents.Cascade, agent: AgentDefinition): SubAgents.Cascade {
    if c.failure.Some? then SubAgents.Cascade(t, c.failure)
    else SubAgents.Cascade(c.tables.(defs := Replace(c.tables.defs, agent.(isActive := Some(false)), DefinitionId)), None)
  }

  /** `deleteAgent`, one transaction: the owner check, the team cascade,
      then the definition made inactive. */
  function DeleteAgentOn(t: SubAgents.Tables, userId: int, agentId: int): SubAgents.Cascade {
    match GetAgent(t.defs, userId, agentId)
    case Err(e) => SubAgents.Cascade(t, Some(e))
    case Ok(agent) => Deactivate(t, AgentTeams(t, userId, agent), agent)
  }

  /** Destroying sub-agents keeps the tables well formed and every
      definition id present. */
  lemma {:induction false} DestroyEachKeeps(t: SubAgents.Tables, tn: int, dn: int, userId: int, parentThreadId: int,
                                            infos: seq<SubAgents.SubAgentInfo>, id: int)
    requires t.Valid(tn, dn) && Lookup(t.defs, id, DefinitionId).Some?
    ensures var c := SubAgents.DestroyEach(t, userId, parentThreadId, infos);
      c.tables.Valid(tn, dn) && Lookup(c.tables.defs, id, DefinitionId).Some?
    decreases |infos|
  {
    if |infos| > 0 {
      var r := SubAgents.Destroy(t, userId, parentThreadId, infos[0].threadId);
      if r.Ok? {
        var ctx := SubAgents.SubAgentAccess(t, userId, parentThreadId, infos[0].threadId).value;
        SubAgents.DestroyedIsGone(t, tn, dn, userId, parentThreadId, infos[0].threadId);
        var inactive := ctx.definition.(isActive := Some(false));
        LookupOfRow(t.defs, ctx.definition, DefinitionId, dn);
        LookupAfterReplace(t.defs, inactive, DefinitionId, dn, id);
        DestroyEachKeeps(r.value, tn, dn, userId, parentThreadId, infos[1..], id);
      }
    }
  }

  lemma {:induction false} DestroyTeamsKeeps(t: SubAgents.Tables, tn: int, dn: int, userId: int,
                                             leadThreads: seq<AgentThread>, id: int)
    requires t.Valid(tn, dn) && Lookup(t.defs, id, DefinitionId).Some?
    ensures var c := DestroyTeams(t, userId, leadThreads);
      c.tables.Valid(tn, dn) && Lookup(c.tables.defs, id, DefinitionId).Some?
    decreases |leadThreads|
  {
    if |leadThreads| > 0 {
      var pid := leadThreads[0].id;
      match SubAgents.TeamListing(t, userId, pid)
      case Err(_) =>
      case Ok(infos) =>
        DestroyEachKeeps(t, tn, dn, userId, pid, infos, id);
        var c := SubAgents.DestroyAll(t, userId, pid);
        if c.failure.None? {
          DestroyTeamsKeeps(c.tables, tn, dn, userId, leadThreads[1..], id);
        }
    }
  }

  /** The team cascade keeps the tables well formed and the agent present;
      a sub-agent has no team, so nothing happens. */
  lemma AgentTeamsKeeps(t: SubAgents.Tables, tn: int, dn: int, userId: int, agent: AgentDefinition)
    requires t.Valid(tn, dn) && Lookup(t.defs, agent.id, DefinitionId).Some?
    ensures var c := AgentTeams(t, userId, agent);
      && c.tables.Valid(tn, dn) && Lookup(c.tables.defs, agent.id, DefinitionId).Some?
      && (agent.parentThreadId.Some? ==> c == SubAgents.Cascade(t, None))
  {
    if agent.parentThreadId.None? {
      DestroyTeamsKeeps(t, tn, dn, userId, Listing(t.threads, userId, Some(agent.id)), agent.id);
    }
  }

  /** Deactivation after a successful cascade keeps the tables well formed
      and reads back the inactive agent. */
  lemma DeactivateSpec(t: SubAgents.Tables, c: SubAgents.Cascade, tn: int, dn: int, agent: AgentDefinition)
    requires c.tables.Valid(tn, dn) && Lookup(c.tables.defs, agent.id, DefinitionId).Some?
    ensures var r := Deactivate(t, c, agent);
      && (c.failure.Some? ==> r == SubAgents.Cascade(t, c.failure))
      && (c.failure.None? ==>
            && r.failure.None? && r.tables.threads == c.tables.threads && r.tables.Valid(tn, dn)
            && Lookup(r.tables.defs, agent.id, DefinitionId) == Some(agent.(isActive := Some(false))))
  {
    if c.failure.None? {
      var inactive := agent.(isActive := Some(false));
      ReplaceKeepsIdsIncreasing(c.tables.defs, inactive, DefinitionId, dn);
      LookupAfterReplace(c.tables.defs, inactive, DefinitionId, dn, agent.id);
    }
  }

  /** The outcomes of `deleteAgent`: a failed owner check is reported with
      nothing changed; so is any failure of the cascade; on success the
      tables stay well formed and the agent reads back inactive; deleting a
      sub-agent touches no thread and cannot fail after the check. */
  lemma DeleteAgentSpec(t: SubAgents.Tables, tn: int, dn: int, userId: int, agentId: int)
    requires t.Valid(tn, dn)
    ensures var c := DeleteAgentOn(t, userId, agentId);
      var found := GetAgent(t.defs, userId, agentId);
      && (found.Err? ==> c == SubAgents.Cascade(t, Some(found.error)))
      && (c.failure.Some? ==> c.tables == t)
      && (c.failure.None? ==>
            && found.Ok? && c.tables.Valid(tn, dn)
            && Lookup(c.tables.defs, agentId, DefinitionId) == Some(found.value.(isActive := Some(false))))
      && (found.Ok? && found.value.parentThreadId.Some? ==> c.failure.None? && c.tables.threads == t.threads)
  {
    var found := GetAgent(t.defs, userId, agentId);
    if found.Ok? {
      var agent := found.value;
      AgentTeamsKeeps(t, tn, dn, userId, agent);
      DeactivateSpec(t, AgentTeams(t, userId, agent), tn, dn, agent);
    }
  }

  /** A deleted agent drops out of its owner's listing. */
  lemma DeletedAgentUnlisted(t: SubAgents.Tables, tn: int, dn: int, userId: int, agentId: int)
    requires t.Valid(tn, dn)
    ensures var c := DeleteAgentOn(t, userId, agentId);
      c.failure.None? ==> forall d :: d in OfUser(c.tables.defs, userId) ==> d.id != agentId
  {
    DeleteAgentSpec(t, tn, dn, userId, agentId);
    var c := DeleteAgentOn(t, userId, agentId);
    if c.failure.None? {
      forall d | d in c.tables.defs && d.id == agentId
        ensures !d.IsActive()
      {
        LookupOfRow(c.tables.defs, d, DefinitionId, dn);
      }
    }
  }

  // ---------------------------------------------------------------------------
  // The service
  // ---------------------------------------------------------------------------

  class AgentManagementService {
    const definitions: AgentDefinitionRepository
    const threads: AgentThreadRepository
    const subAgentService: SubAgents.SubAgentService

    ghost predicate Valid()
      reads this, subAgentService, subAgentService.agentTypeRegistry, definitions, threads, subAgentService.messages
    {
      && definitions == subAgentService.definitions && threads == subAgentService.threads
      && subAgentService.Valid()
    }

    constructor (subAgentService: SubAgents.SubAgentService)
      requires subAgentService.Valid()
      ensures Valid() && this.subAgentService == subAgentService
    {
      this.subAgentService := subAgentService;
      definitions := subAgentService.definitions;
      threads := subAgentService.threads;
    }

    /** `createAgent`: stored as given, except that the owner is always the
        caller. */
    method CreateAgent(userId: int, definition: AgentDefinition) returns (created: AgentDefinition)
      requires Valid()
      modifies definitions
      ensures Valid()
      ensures created == definition.(userId := userId, id := old(definitions.nextId))
      ensures definitions.rows == old(definitions.rows) + [created]
    {
      var id := definitions.Insert(definition.(userId := userId));
      created := definition.(userId := userId, id := id);
    }

    /** `createAgentWithThread`: the provider parsed first (nothing stored
        when it is unknown), then the Lead Agent and its thread stored
        together. */
    method CreateAgentWithThread(userId: int, provider: string, modelName: string, displayName: Option<string>,
                                 uuidPrefix: string, now: int) returns (r: Result<AgentWithThread, BusinessException>)
      requires Valid()
      modifies definitions, threads
      ensures Valid()
      ensures match ParseProvider(provider)
        case Err(e) =>
          r == Err(e) && definitions.rows == old(definitions.rows) && threads.rows == old(threads.rows)
        case Ok(p) =>
          && r.Ok?
          && r.value.agent == LeadAgent(userId, p, modelName, displayName, uuidPrefix).(id := old(definitions.nextId))
          && r.value.thread == LeadThread(userId, old(definitions.nextId)).(id := old(threads.nextId), createdAt := now)
          && definitions.rows == old(definitions.rows) + [r.value.agent]
          && threads.rows == old(threads.rows) + [r.value.thread]
    {
      var parsed := ParseProvider(provider);
      if parsed.Err? {
        return Err(parsed.error);
      }
      var agent := LeadAgent(userId, parsed.value, modelName, displayName, uuidPrefix);
      var agentId := definitions.Insert(agent);
      var thread := LeadThread(userId, agentId);
      var threadId := threads.Insert(thread, now);
      r := Ok(AgentWithThread(agent.(id := agentId), thread.(id := threadId, createdAt := now)));
    }

    /** `deleteAgent`. The transaction's rollback restores both tables and
        their id generators. */
    method DeleteAgent(userId: int, agentId: int) returns (failure: Option<BusinessException>)
      requires Valid()
      modifies definitions, threads
      ensures Valid()
      ensures SubAgents.Cascade(subAgentService.Snapshot(), failure) == DeleteAgentOn(old(subAgentService.Snapshot()), userId, agentId)
    {
      failure := None;
      var agent := definitions.FindById(agentId);
      if agent.None? {
        return Some(Biz(AGENT_NOT_FOUND));
      }
      if agent.value.userId != userId {
        return Some(Biz(AGENT_ACCESS_DENIED));
      }
      if agent.value.parentThreadId.None? {
        failure := DestroyLeadTeams(userId, agentId);
        if failure.Some? {
          return;
        }
      }
      definitions.Update(agent.value.(isActive := Some(false)));
    }

    /** The cascade of `deleteAgent` for a Lead Agent, rolled back on
        failure. */
    method DestroyLeadTeams(userId: int, agentId: int) returns (failure: Option<BusinessException>)
      requires Valid()
      modifies definitions, threads
      ensures Valid()
      ensures var c := DestroyTeams(old(subAgentService.Snapshot()), userId, Listing(old(threads.rows), userId, Some(agentId)));
        && failure == c.failure
        && subAgentService.Snapshot() == (if failure.Some? then old(subAgentService.Snapshot()) else c.tables)
    {
      var leadThreads := threads.FindByUserIdAndAgentId(userId, agentId);
      ghost var start := subAgentService.Snapshot();
      var savedThreads, savedThreadNext := threads.rows, threads.nextId;
      var savedDefs, savedDefNext := definitions.rows, definitions.nextId;
      for i := 0 to |leadThreads|
        invariant Valid()
        invariant DestroyTeams(start, userId, leadThreads) == DestroyTeams(subAgentService.Snapshot(), userId, leadThreads[i..])
      {
        var f := subAgentService.DestroyAllByParentThread(userId, leadThreads[i].id);
        if f.Some? {
          Rollback(savedThreads, savedThreadNext, savedDefs, savedDefNext);
          return f;
        }
        assert leadThreads[i..][1..] == leadThreads[i + 1..];
      }
      assert leadThreads[|leadThreads|..] == [];
      return None;
    }

    /** The transaction's rollback: both tables and their id generators as
        they were when it began. */
    method Rollback(threadRows: seq<AgentThread>, threadNext: int, defRows: seq<AgentDefinition>, defNext: int)
      requires Valid()
      requires IdsIncreasing(threadRows, ThreadId, threadNext) && IdsIncreasing(defRows, DefinitionId, defNext)
      modifies definitions, threads
      ensures Valid()
      ensures threads.rows == threadRows && threads.nextId == threadNext
      ensures definitions.rows == defRows && definitions.nextId == defNext
    {
      threads.rows, threads.nextId := threadRows, threadNext;
      definitions.rows, definitions.nextId := defRows, defNext;
    }
  }
}
