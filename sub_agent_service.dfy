/** Sub-agents of a Lead Agent's conversation: creation under a parent thread,
    the membership checks every later call must pass, the synchronous chat
    turn with its rate-limit retry, soft deletion and the team listing. */
module SubAgents {
  import opened Wrappers
  import opened Strs
  import opened Domain
  import opened ResultCodes
  import opened Causes
  import opened AgentTypes
  import opened ThreadRepo
  import opened DefinitionRepo
  import opened MessageRepo
  import Factory

  const SUB_AGENT_MEMORY_WINDOW: int := 20
  const MAX_RETRIES: nat := 3
  const BASE_BACKOFF_SECONDS: nat := 15
  /** `ThreadLocalRandom.nextInt(10)` draws the extra seconds from [0, 10). */
  const JITTER_BOUND: nat := 10

  const PARENT_THREAD_MISSING: string := "父线程不存在"
  const PARENT_THREAD_DENIED: string := "无权访问父线程"
  const PARENT_AGENT_MISSING: string := "父Agent不存在"
  const NESTING_DENIED: string := "当前Agent不允许创建子Agent"
  const SUB_THREAD_MISSING: string := "子Agent线程不存在"
  const SUB_THREAD_DENIED: string := "无权访问子Agent线程"
  const SUB_AGENT_MISSING: string := "子Agent不存在"
  const NOT_IN_TEAM: string := "子Agent不属于当前团队"

  const TASK_PREFIX: string := "Sub-agent for task: "
  const ERROR_PREFIX: string := "[Error] "
  const ADDITIONAL_OPEN: string := "\n\n<additional-instructions>\n"
  const ADDITIONAL_CLOSE: string := "\n</additional-instructions>"

  /** What `createSubAgent` and `listTeamAgents` report per sub-agent. */
  datatype SubAgentInfo = SubAgentInfo(agentName: string, threadId: int, agentType: string, displayName: Option<string>)

  /** A sub-agent's thread together with its definition. */
  datatype SubAgentContext = SubAgentContext(thread: AgentThread, definition: AgentDefinition)

  /** The two tables the service reads and writes. */
  datatype Tables = Tables(threads: seq<AgentThread>, defs: seq<AgentDefinition>) {
    ghost predicate Valid(threadNext: int, defNext: int) {
      IdsIncreasing(threads, ThreadId, threadNext) && IdsIncreasing(defs, DefinitionId, defNext)
    }
  }

  /** `s.isEmpty() ? null : s`. */
  function NullIfEmpty(s: string): (r: Option<string>)
    ensures r.None? <==> s == ""
    ensures r.Some? ==> r.value == s
  {
    if s == "" then None else Some(s)
  }

  // ---------------------------------------------------------------------------
  // System prompt and tool list of a new sub-agent
  // ---------------------------------------------------------------------------

  /** `buildSystemPrompt`: the archetype's prompt, with a non-blank extra
      prompt either standing in for an empty one or appended in an
      `<additional-instructions>` block. */
  function BuildSystemPrompt(base: string, additionalPrompt: Option<string>): (r: string)
    ensures StartsWith(r, base)
    ensures r == base <==> additionalPrompt.None? || IsBlank(additionalPrompt.value)
    ensures additionalPrompt.Some? && !IsBlank(additionalPrompt.value) ==> Contains(r, additionalPrompt.value)
    ensures r == "" <==> base == "" && (additionalPrompt.None? || IsBlank(additionalPrompt.value))
  {
    if additionalPrompt.Some? && !IsBlank(additionalPrompt.value) then
      var extra := additionalPrompt.value;
      assert |extra| > 0;
      if base == "" then
        ContainsItself(extra, "", extra, "");
        extra
      else
        var r := base + ADDITIONAL_OPEN + extra + ADDITIONAL_CLOSE;
        assert r[..|base|] == base;
        ContainsItself(r, base + ADDITIONAL_OPEN, extra, ADDITIONAL_CLOSE);
        r
    else base
  }

  /** The extra tool names: none for a missing or blank list, otherwise the
      trimmed non-empty pieces between commas. */
  function ExtraToolNames(additionalTools: Option<string>): seq<string> {
    if additionalTools.None? || IsBlank(additionalTools.value) then [] else Tokens(additionalTools.value)
  }

  /** The `LinkedHashSet` `buildToolNames` fills: the archetype's defaults,
      then the extra names, then `subAgentTool` removed. */
  function MergedToolNames(defaultTools: seq<string>, additionalTools: Option<string>): seq<string> {
    Factory.Remove(Factory.AddAll(Factory.AddAll([], defaultTools), ExtraToolNames(additionalTools)), Factory.SUB_AGENT_TOOL)
  }

  /** `buildToolNames`: the merged set joined by commas. */
  function BuildToolNames(defaultTools: seq<string>, additionalTools: Option<string>): string {
    Join(MergedToolNames(defaultTools, additionalTools), ",")
  }

  lemma {:induction false} AddAllOfDistinct(xs: seq<string>)
    requires Distinct(xs)
    ensures Factory.AddAll([], xs) == xs
  {
    if |xs| > 0 {
      var init, last := xs[..|xs| - 1], xs[|xs| - 1];
      assert Distinct(init) by {
        forall i, j | 0 <= i < j < |init| ensures init[i] != init[j] {
          assert init[i] == xs[i] && init[j] == xs[j];
        }
      }
      AddAllOfDistinct(init);
      assert last !in init by {
        forall i | 0 <= i < |init| ensures init[i] != last {
          assert init[i] == xs[i] && last == xs[|xs| - 1];
        }
      }
      assert init + [last] == xs;
    }
  }

  lemma {:induction false} RemoveAbsent(s: seq<string>, x: string)
    requires x !in s
    ensures Factory.Remove(s, x) == s
  {
    if |s| > 0 {
      RemoveAbsent(s[..|s| - 1], x);
      assert s[..|s| - 1] + [s[|s| - 1]] == s;
    }
  }

  lemma {:induction false} RemoveAfterPrefix(p: seq<string>, q: seq<string>, x: string)
    requires x !in p
    ensures Factory.Remove(p + q, x) == p + Factory.Remove(q, x)
  {
    if |q| == 0 {
      assert p + q == p;
      RemoveAbsent(p, x);
    } else {
      var init := q[..|q| - 1];
      RemoveAfterPrefix(p, init, x);
      assert (p + q)[..|p + q| - 1] == p + init;
      assert (p + q)[|p + q| - 1] == q[|q| - 1];
    }
  }

  /** The merged tool names hold no repeat and never `subAgentTool`; they are
      exactly the defaults and extras other than it, and defaults that are
      already distinct come first, in their own order. */
  lemma MergedToolNamesSpec(defaultTools: seq<string>, additionalTools: Option<string>)
    ensures var r := MergedToolNames(defaultTools, additionalTools);
      && Distinct(r)
      && Factory.SUB_AGENT_TOOL !in r
      && (forall x :: x in r <==> (x in defaultTools || x in ExtraToolNames(additionalTools)) && x != Factory.SUB_AGENT_TOOL)
  {
    var a := Factory.AddAll([], defaultTools);
    var b := Factory.AddAll(a, ExtraToolNames(additionalTools));
    Factory.AddAllSpec([], defaultTools);
    Factory.AddAllSpec(a, ExtraToolNames(additionalTools));
    Factory.RemoveSpec(b, Factory.SUB_AGENT_TOOL);
  }

  lemma MergedToolNamesOrder(defaultTools: seq<string>, additionalTools: Option<string>)
    requires Distinct(defaultTools) && Factory.SUB_AGENT_TOOL !in defaultTools
    ensures var r := MergedToolNames(defaultTools, additionalTools);
      |defaultTools| <= |r| && r[..|defaultTools|] == defaultTools
  {
    AddAllOfDistinct(defaultTools);
    var b := Factory.AddAll(defaultTools, ExtraToolNames(additionalTools));
    Factory.AddAllSpec(defaultTools, ExtraToolNames(additionalTools));
    assert b == defaultTools + b[|defaultTools|..];
    RemoveAfterPrefix(defaultTools, b[|defaultTools|..], Factory.SUB_AGENT_TOOL);
  }

  /** A tool name the comma-separated column stores and reads back unchanged. */
  predicate CleanName(n: string) {
    n != "" && ',' !in n && Trim(n) == n
  }

  /** Sub-agents cannot nest: as long as the archetype's defaults are clean
      names, the stored tool column of a new sub-agent never parses to
      include `subAgentTool`, whatever extra tools were asked for. */
  lemma NoNestedSubAgentTool(defaultTools: seq<string>, additionalTools: Option<string>)
    requires forall n :: n in defaultTools ==> CleanName(n)
    ensures !Factory.HasSubAgentTool(NullIfEmpty(BuildToolNames(defaultTools, additionalTools)))
  {
    var m := MergedToolNames(defaultTools, additionalTools);
    MergedToolNamesSpec(defaultTools, additionalTools);
    if |m| >= 1 {
      if additionalTools.Some? {
        TokensAreClean(additionalTools.value);
      }
      assert forall n :: n in m ==> n != "" && ',' !in n && Trim(n) == n;
      TokensOfJoin(m);
    }
  }

  // ---------------------------------------------------------------------------
  // Type of a listed sub-agent
  // ---------------------------------------------------------------------------

  /** The type `listTeamAgents` reads back from a sub-agent's name: the part
      before the last `'-'`, or the whole name when it has none. */
  function TypeOfName(name: string): (r: string)
    ensures StartsWith(name, r)
    ensures '-' !in name ==> r == name
    ensures '-' in name ==> |r| < |name| && name[|r|] == '-' && '-' !in name[|r| + 1..]
  {
    if '-' in name then
      var k := LastIndexOf(name, '-');
      var i :| 0 <= i < |name| && name[i] == '-';
      assert k >= i;
      name[..k]
    else name
  }

  /** The name `createSubAgent` gives: the type, a dash and a UUID prefix. */
  function SubAgentName(agentType: string, uuidPrefix: string): string {
    agentType + "-" + uuidPrefix
  }

  /** The listing reads the type of a created sub-agent back unchanged, even
      a type whose own name has dashes, since the suffix has none. */
  lemma TypeOfCreatedName(agentType: string, uuidPrefix: string)
    requires '-' !in uuidPrefix
    ensures TypeOfName(SubAgentName(agentType, uuidPrefix)) == agentType
  {
    var name := SubAgentName(agentType, uuidPrefix);
    var r := TypeOfName(name);
    assert name[|agentType|] == '-';
    assert '-' in name;
    assert forall j :: |r| < j < |name| ==> name[j] in name[|r| + 1..];
    assert |r| >= |agentType|;
    assert forall j :: |agentType| < j < |name| ==> name[j] == uuidPrefix[j - |agentType| - 1];
    assert |r| <= |agentType|;
    assert r == name[..|agentType|];
  }

  // ---------------------------------------------------------------------------
  // Access checks
  // ---------------------------------------------------------------------------

  /** `validateParentThreadAccess`: a missing or DELETED parent thread is not
      found, another user's is denied. */
  function ParentThread(threads: seq<AgentThread>, userId: int, parentThreadId: int): (r: Result<AgentThread, BusinessException>)
    ensures r.Ok? ==>
      r.value in threads && r.value.id == parentThreadId && r.value.status != DELETED && r.value.userId == userId
    ensures r.Err? ==>
      r.error == BizMsg(THREAD_NOT_FOUND, PARENT_THREAD_MISSING) || r.error == BizMsg(THREAD_ACCESS_DENIED, PARENT_THREAD_DENIED)
    ensures (forall t :: t in threads ==> t.id != parentThreadId) ==> r == Err(BizMsg(THREAD_NOT_FOUND, PARENT_THREAD_MISSING))
  {
    match Lookup(threads, parentThreadId, ThreadId)
    case None => Err(BizMsg(THREAD_NOT_FOUND, PARENT_THREAD_MISSING))
    case Some(p) =>
      if p.status == DELETED then Err(BizMsg(THREAD_NOT_FOUND, PARENT_THREAD_MISSING))
      else if p.userId != userId then Err(BizMsg(THREAD_ACCESS_DENIED, PARENT_THREAD_DENIED))
      else Ok(p)
  }

  /** A sub-agent of the user: an active definition of theirs and one of its
      ACTIVE threads, also theirs. */
  predicate Member(c: SubAgentContext, defs: seq<AgentDefinition>, threads: seq<AgentThread>, userId: int) {
    && c.definition in defs && c.definition.IsActive() && c.definition.userId == userId
    && c.thread in threads && c.thread.userId == userId && c.thread.agentId == c.definition.id
    && c.thread.status == ACTIVE
  }

  /** `validateSubAgentAccess`: the parent check, then the sub-agent's
      thread (missing or not ACTIVE, then owner), then its definition
      (missing or inactive, then owner and parent thread). */
  function SubAgentAccess(t: Tables, userId: int, parentThreadId: int, threadId: int): (r: Result<SubAgentContext, BusinessException>)
    ensures ParentThread(t.threads, userId, parentThreadId).Err? ==> r == Err(ParentThread(t.threads, userId, parentThreadId).error)
    ensures r.Ok? ==>
      && ParentThread(t.threads, userId, parentThreadId).Ok?
      && Member(r.value, t.defs, t.threads, userId) && r.value.thread.id == threadId
      && r.value.definition.parentThreadId == Some(parentThreadId)
    ensures (forall th :: th in t.threads ==> th.id != threadId || th.status != ACTIVE) ==> r.Err?
  {
    var parent := ParentThread(t.threads, userId, parentThreadId);
    if parent.Err? then Err(parent.error)
    else match Lookup(t.threads, threadId, ThreadId)
      case None => Err(BizMsg(THREAD_NOT_FOUND, SUB_THREAD_MISSING))
      case Some(th) =>
        if th.status != ACTIVE then Err(BizMsg(THREAD_NOT_FOUND, SUB_THREAD_MISSING))
        else if th.userId != userId then Err(BizMsg(THREAD_ACCESS_DENIED, SUB_THREAD_DENIED))
        else match Lookup(t.defs, th.agentId, DefinitionId)
          case None => Err(BizMsg(AGENT_NOT_FOUND, SUB_AGENT_MISSING))
          case Some(d) =>
            if !d.IsActive() then Err(BizMsg(AGENT_NOT_FOUND, SUB_AGENT_MISSING))
            else if d.userId != userId || d.parentThreadId != Some(parentThreadId) then Err(BizMsg(AGENT_ACCESS_DENIED, NOT_IN_TEAM))
            else Ok(SubAgentContext(th, d))
  }

  lemma AccessOfFound(t: Tables, userId: int, parentThreadId: int, threadId: int, th: AgentThread, d: AgentDefinition)
    requires ParentThread(t.threads, userId, parentThreadId).Ok?
    requires Lookup(t.threads, threadId, ThreadId) == Some(th) && th.status == ACTIVE && th.userId == userId
    requires Lookup(t.defs, th.agentId, DefinitionId) == Some(d)
    requires d.IsActive() && d.userId == userId && d.parentThreadId == Some(parentThreadId)
    ensures SubAgentAccess(t, userId, parentThreadId, threadId) == Ok(SubAgentContext(th, d))
  {
  }

  lemma AccessOfNotActive(t: Tables, userId: int, parentThreadId: int, threadId: int, th: AgentThread)
    requires ParentThread(t.threads, userId, parentThreadId).Ok?
    requires Lookup(t.threads, threadId, ThreadId) == Some(th) && th.status != ACTIVE
    ensures SubAgentAccess(t, userId, parentThreadId, threadId) == Err(BizMsg(THREAD_NOT_FOUND, SUB_THREAD_MISSING))
  {
  }

  lemma AccessOfInactive(t: Tables, userId: int, parentThreadId: int, threadId: int, th: AgentThread, d: AgentDefinition)
    requires ParentThread(t.threads, userId, parentThreadId).Ok?
    requires Lookup(t.threads, threadId, ThreadId) == Some(th) && th.status == ACTIVE && th.userId == userId
    requires Lookup(t.defs, th.agentId, DefinitionId) == Some(d) && !d.IsActive()
    ensures SubAgentAccess(t, userId, parentThreadId, threadId) == Err(BizMsg(AGENT_NOT_FOUND, SUB_AGENT_MISSING))
  {
  }

  /** Archiving a stored thread keeps an accessible parent thread accessible. */
  lemma ParentAfterArchiving(threads: seq<AgentThread>, tn: int, row: AgentThread, userId: int, parentThreadId: int)
    requires IdsIncreasing(threads, ThreadId, tn) && row in threads
    requires ParentThread(threads, userId, parentThreadId).Ok?
    ensures ParentThread(Replace(threads, row.(status := ARCHIVED), ThreadId), userId, parentThreadId).Ok?
  {
    LookupOfRow(threads, row, ThreadId, tn);
    LookupAfterReplace(threads, row.(status := ARCHIVED), ThreadId, tn, parentThreadId);
  }

  /** Every member of the team under an accessible parent passes the check. */
  lemma AccessOfMember(t: Tables, tn: int, dn: int, userId: int, parentThreadId: int, c: SubAgentContext)
    requires t.Valid(tn, dn)
    requires ParentThread(t.threads, userId, parentThreadId).Ok?
    requires Member(c, t.defs, t.threads, userId) && c.definition.parentThreadId == Some(parentThreadId)
    ensures SubAgentAccess(t, userId, parentThreadId, c.thread.id) == Ok(c)
  {
    LookupOfRow(t.threads, c.thread, ThreadId, tn);
    LookupOfRow(t.defs, c.definition, DefinitionId, dn);
  }

  // ---------------------------------------------------------------------------
  // Creation
  // ---------------------------------------------------------------------------

  /** What creation takes from the registry and from the Lead Agent. */
  datatype CreationBasis = CreationBasis(descriptor: AgentTypeDescriptor, parentAgent: AgentDefinition)

  /** The rejection of an unknown type, listing the registered names the way
      a Java set prints. */
  function UnknownTypeMessage(agentType: string, typeNames: seq<string>): string {
    "未知的Agent类型: " + agentType + ", 可用类型: [" + Join(typeNames, ", ") + "]"
  }

  /** The checks of `createSubAgent`, first failure wins: the type, then the
      parent thread (missing, another user's, DELETED), then the Lead Agent
      (missing, without `subAgentTool`). */
  function CreationCheck(t: Tables, types: map<string, AgentTypeDescriptor>, typeNames: seq<string>,
                         userId: int, parentThreadId: int, agentType: string): (r: Result<CreationBasis, BusinessException>)
    ensures agentType !in types ==> r == Err(BizMsg(PARAM_VALIDATION_FAILED, UnknownTypeMessage(agentType, typeNames)))
    ensures agentType in types && (forall th :: th in t.threads ==> th.id != parentThreadId) ==>
      r == Err(BizMsg(THREAD_NOT_FOUND, PARENT_THREAD_MISSING))
    ensures r.Ok? ==>
      && agentType in types && r.value.descriptor == types[agentType]
      && ParentThread(t.threads, userId, parentThreadId).Ok?
      && r.value.parentAgent in t.defs
      && r.value.parentAgent.id == ParentThread(t.threads, userId, parentThreadId).value.agentId
      && Factory.HasSubAgentTool(r.value.parentAgent.toolNames)
    ensures r.Err? && r.error.code == AGENT_ACCESS_DENIED ==>
      r.error.message == Some(NESTING_DENIED) && ParentThread(t.threads, userId, parentThreadId).Ok?
  {
    if agentType !in types then Err(BizMsg(PARAM_VALIDATION_FAILED, UnknownTypeMessage(agentType, typeNames)))
    else match Lookup(t.threads, parentThreadId, ThreadId)
      case None => Err(BizMsg(THREAD_NOT_FOUND, PARENT_THREAD_MISSING))
      case Some(p) =>
        if p.userId != userId then Err(BizMsg(THREAD_ACCESS_DENIED, PARENT_THREAD_DENIED))
        else if p.status == DELETED then Err(BizMsg(THREAD_NOT_FOUND, PARENT_THREAD_MISSING))
        else match Lookup(t.defs, p.agentId, DefinitionId)
          case None => Err(BizMsg(AGENT_NOT_FOUND, PARENT_AGENT_MISSING))
          case Some(lead) =>
            if !Factory.HasSubAgentTool(lead.toolNames) then Err(BizMsg(AGENT_ACCESS_DENIED, NESTING_DENIED))
            else Ok(CreationBasis(types[agentType], lead))
  }

  /** Creation checks the owner before the DELETED status, the other
      operations the other way round: another user's DELETED parent thread is
      denied to creation and not found by every later call. */
  lemma DeletedForeignParent(t: Tables, tn: int, dn: int, types: map<string, AgentTypeDescriptor>, typeNames: seq<string>,
                             userId: int, agentType: string, parent: AgentThread)
    requires t.Valid(tn, dn) && agentType in types
    requires parent in t.threads && parent.status == DELETED && parent.userId != userId
    ensures CreationCheck(t, types, typeNames, userId, parent.id, agentType) == Err(BizMsg(THREAD_ACCESS_DENIED, PARENT_THREAD_DENIED))
    ensures ParentThread(t.threads, userId, parent.id) == Err(BizMsg(THREAD_NOT_FOUND, PARENT_THREAD_MISSING))
  {
    LookupOfRow(t.threads, parent, ThreadId, tn);
  }

  /** The definition `createSubAgent` inserts (its id is assigned by the
      insert): the archetype's description as display name, the Lead Agent's
      model settings, the merged prompt and tools (null when empty), a window
      of 20, active, under the parent thread. */
  function SubAgentDefinition(b: CreationBasis, userId: int, parentThreadId: int, name: string, task: Option<string>,
                              additionalPrompt: Option<string>, additionalTools: Option<string>): AgentDefinition {
    AgentDefinition(
      0, userId, name, Some(b.descriptor.description), Some(TASK_PREFIX + task.GetOr("")),
      NullIfEmpty(BuildSystemPrompt(b.descriptor.promptContent, additionalPrompt)), None,
      b.parentAgent.provider, b.parentAgent.modelName,
      NullIfEmpty(BuildToolNames(b.descriptor.defaultTools, additionalTools)), None,
      Some(SUB_AGENT_MEMORY_WINDOW), b.parentAgent.temperature, b.parentAgent.maxTokens,
      Some(true), Some(parentThreadId))
  }

  /** The thread inserted with it: ACTIVE, empty counters, titled with the
      archetype's description. */
  function SubAgentThread(b: CreationBasis, userId: int, agentId: int): AgentThread {
    AgentThread(0, agentId, userId, Some(b.descriptor.description), ACTIVE, Some(0), Some(0), None, false, 0)
  }

  /** The two tables after a creation that passed its checks. */
  function AfterCreation(t: Tables, b: CreationBasis, userId: int, parentThreadId: int, name: string, task: Option<string>,
                         additionalPrompt: Option<string>, additionalTools: Option<string>,
                         defId: int, threadId: int, now: int): Tables {
    Tables(
      t.threads + [SubAgentThread(b, userId, defId).(id := threadId, createdAt := now)],
      t.defs + [SubAgentDefinition(b, userId, parentThreadId, name, task, additionalPrompt, additionalTools).(id := defId)])
  }

  // ---------------------------------------------------------------------------
  // Team listing
  // ---------------------------------------------------------------------------

  /** The ACTIVE threads among `ts`, each paired with `d`, in order. */
  function ActiveOf(d: AgentDefinition, ts: seq<AgentThread>): seq<SubAgentContext> {
    if |ts| == 0 then []
    else
      var last := ts[|ts| - 1];
      ActiveOf(d, ts[..|ts| - 1]) + (if last.status == ACTIVE then [SubAgentContext(last, d)] else [])
  }

  /** One definition's entries: none unless it is active and the user's,
      otherwise its ACTIVE threads among the user's listing for it. */
  function MembersOf(d: AgentDefinition, threads: seq<AgentThread>, userId: int): seq<SubAgentContext> {
    if d.IsActive() && d.userId == userId then ActiveOf(d, Listing(threads, d.userId, Some(d.id))) else []
  }

  /** The entries of every definition, in definition order. */
  function Members(defs: seq<AgentDefinition>, threads: seq<AgentThread>, userId: int): seq<SubAgentContext> {
    if |defs| == 0 then []
    else Members(defs[..|defs| - 1], threads, userId) + MembersOf(defs[|defs| - 1], threads, userId)
  }

  /** The reported entry: the name, the thread, the type read back from the
      name and the display name. */
  function InfoOf(c: SubAgentContext): SubAgentInfo {
    SubAgentInfo(c.definition.name, c.thread.id, TypeOfName(c.definition.name), c.definition.displayName)
  }

  function Infos(cs: seq<SubAgentContext>): (r: seq<SubAgentInfo>)
    ensures |r| == |cs|
    ensures forall i :: 0 <= i < |cs| ==> r[i] == InfoOf(cs[i])
  {
    if |cs| == 0 then [] else Infos(cs[..|cs| - 1]) + [InfoOf(cs[|cs| - 1])]
  }

  lemma InfosAppend(a: seq<SubAgentContext>, b: seq<SubAgentContext>)
    ensures Infos(a + b) == Infos(a) + Infos(b)
  {
  }

  /** `listTeamAgents`: after the parent check, every ACTIVE thread of every
      active definition of the user created under the parent thread. */
  function TeamListing(t: Tables, userId: int, parentThreadId: int): (r: Result<seq<SubAgentInfo>, BusinessException>)
    ensures r.Err? <==> ParentThread(t.threads, userId, parentThreadId).Err?
    ensures r.Err? ==> r.error == ParentThread(t.threads, userId, parentThreadId).error
  {
    var parent := ParentThread(t.threads, userId, parentThreadId);
    if parent.Err? then Err(parent.error)
    else Ok(Infos(Members(WithParent(t.defs, parentThreadId), t.threads, userId)))
  }

  lemma {:induction false} ActiveOfSpec(d: AgentDefinition, ts: seq<AgentThread>)
    ensures forall c :: c in ActiveOf(d, ts) <==> c.definition == d && c.thread in ts && c.thread.status == ACTIVE
  {
    if |ts| > 0 {
      var init := ts[..|ts| - 1];
      ActiveOfSpec(d, init);
      assert ts == init + [ts[|ts| - 1]];
    }
  }

  /** The entries are exactly the user's members among the definitions. */
  lemma {:induction false} MembersSpec(defs: seq<AgentDefinition>, threads: seq<AgentThread>, userId: int)
    ensures forall c :: c in Members(defs, threads, userId) <==> Member(c, defs, threads, userId)
  {
    if |defs| > 0 {
      var init, d := defs[..|defs| - 1], defs[|defs| - 1];
      MembersSpec(init, threads, userId);
      ActiveOfSpec(d, Listing(threads, d.userId, Some(d.id)));
      assert defs == init + [d];
    }
  }

  /** The listing holds exactly the members created under the parent thread,
      each typed by its name. */
  lemma TeamListingSpec(t: Tables, userId: int, parentThreadId: int)
    requires TeamListing(t, userId, parentThreadId).Ok?
    ensures forall info :: info in TeamListing(t, userId, parentThreadId).value <==>
      exists c :: Member(c, t.defs, t.threads, userId) && c.definition.parentThreadId == Some(parentThreadId) && info == InfoOf(c)
  {
    var cs := Members(WithParent(t.defs, parentThreadId), t.threads, userId);
    MembersSpec(WithParent(t.defs, parentThreadId), t.threads, userId);
    var r := TeamListing(t, userId, parentThreadId).value;
    forall info | info in r
      ensures exists c :: Member(c, t.defs, t.threads, userId) && c.definition.parentThreadId == Some(parentThreadId) && info == InfoOf(c)
    {
      var i :| 0 <= i < |r| && r[i] == info;
      assert cs[i] in cs;
    }
    forall c | Member(c, t.defs, t.threads, userId) && c.definition.parentThreadId == Some(parentThreadId)
      ensures InfoOf(c) in r
    {
      assert c in cs;
      var i :| 0 <= i < |cs| && cs[i] == c;
      assert r[i] == InfoOf(c);
    }
  }

  /** A definition and its thread appended under fresh ids, both the user's,
      active and under an accessible parent, form a team member. */
  lemma AppendedMember(t: Tables, tn: int, dn: int, userId: int, parentThreadId: int, th: AgentThread, d: AgentDefinition)
    requires t.Valid(tn, dn)
    requires ParentThread(t.threads, userId, parentThreadId).Ok?
    requires th.id == tn && th.agentId == dn && th.status == ACTIVE && th.userId == userId
    requires d.id == dn && d.IsActive() && d.userId == userId && d.parentThreadId == Some(parentThreadId)
    ensures var after := Tables(t.threads + [th], t.defs + [d]);
      && after.Valid(tn + 1, dn + 1)
      && SubAgentAccess(after, userId, parentThreadId, tn) == Ok(SubAgentContext(th, d))
      && TeamListing(after, userId, parentThreadId).Ok?
      && InfoOf(SubAgentContext(th, d)) in TeamListing(after, userId, parentThreadId).value
  {
    var after := Tables(t.threads + [th], t.defs + [d]);
    AppendKeepsIdsIncreasing(t.threads, th, ThreadId, tn);
    AppendKeepsIdsIncreasing(t.defs, d, DefinitionId, dn);
    LookupAppendFresh(t.threads, th, ThreadId, parentThreadId);
    assert ParentThread(after.threads, userId, parentThreadId) == ParentThread(t.threads, userId, parentThreadId);
    LookupAppendFresh(t.threads, th, ThreadId, tn);
    LookupAppendFresh(t.defs, d, DefinitionId, dn);
    AccessOfFound(after, userId, parentThreadId, tn, th, d);
    TeamListingSpec(after, userId, parentThreadId);
    assert Member(SubAgentContext(th, d), after.defs, after.threads, userId);
  }

  /** A created sub-agent immediately belongs to the team: it passes the
      membership check and the listing reports it under the type it was
      created with. */
  lemma CreatedJoinsTeam(t: Tables, tn: int, dn: int, types: map<string, AgentTypeDescriptor>, typeNames: seq<string>,
                         userId: int, parentThreadId: int, agentType: string, task: Option<string>,
                         additionalPrompt: Option<string>, additionalTools: Option<string>, uuidPrefix: string, now: int)
    requires t.Valid(tn, dn)
    requires CreationCheck(t, types, typeNames, userId, parentThreadId, agentType).Ok?
    requires '-' !in uuidPrefix
    ensures var b := CreationCheck(t, types, typeNames, userId, parentThreadId, agentType).value;
      var name := SubAgentName(agentType, uuidPrefix);
      var after := AfterCreation(t, b, userId, parentThreadId, name, task, additionalPrompt, additionalTools, dn, tn, now);
      && after.Valid(tn + 1, dn + 1)
      && SubAgentAccess(after, userId, parentThreadId, tn).Ok?
      && TeamListing(after, userId, parentThreadId).Ok?
      && SubAgentInfo(name, tn, agentType, Some(b.descriptor.description)) in TeamListing(after, userId, parentThreadId).value
  {
    var b := CreationCheck(t, types, typeNames, userId, parentThreadId, agentType).value;
    var name := SubAgentName(agentType, uuidPrefix);
    var th := SubAgentThread(b, userId, dn).(id := tn, createdAt := now);
    var d := SubAgentDefinition(b, userId, parentThreadId, name, task, additionalPrompt, additionalTools).(id := dn);
    AppendedMember(t, tn, dn, userId, parentThreadId, th, d);
    TypeOfCreatedName(agentType, uuidPrefix);
  }

  /** Nesting is refused one level down: creating a sub-agent under a
      sub-agent's own thread fails with AGENT_ACCESS_DENIED, as long as the
      archetype's default tools are clean names. */
  lemma NestedCreationDenied(t: Tables, tn: int, dn: int, types: map<string, AgentTypeDescriptor>, typeNames: seq<string>,
                             userId: int, parentThreadId: int, agentType: string, task: Option<string>,
                             additionalPrompt: Option<string>, additionalTools: Option<string>, uuidPrefix: string, now: int,
                             nestedType: string)
    requires t.Valid(tn, dn)
    requires CreationCheck(t, types, typeNames, userId, parentThreadId, agentType).Ok?
    requires forall n :: n in types[agentType].defaultTools ==> CleanName(n)
    requires nestedType in types
    ensures var b := CreationCheck(t, types, typeNames, userId, parentThreadId, agentType).value;
      var after := AfterCreation(t, b, userId, parentThreadId, SubAgentName(agentType, uuidPrefix), task, additionalPrompt, additionalTools, dn, tn, now);
      CreationCheck(after, types, typeNames, userId, tn, nestedType) == Err(BizMsg(AGENT_ACCESS_DENIED, NESTING_DENIED))
  {
    var b := CreationCheck(t, types, typeNames, userId, parentThreadId, agentType).value;
    var after := AfterCreation(t, b, userId, parentThreadId, SubAgentName(agentType, uuidPrefix), task, additionalPrompt, additionalTools, dn, tn, now);
    var th, d := after.threads[|t.threads|], after.defs[|t.defs|];
    assert after.threads == t.threads + [th] && after.defs == t.defs + [d];
    LookupAppendFresh(t.threads, th, ThreadId, tn);
    LookupAppendFresh(t.defs, d, DefinitionId, dn);
    NoNestedSubAgentTool(b.descriptor.defaultTools, additionalTools);
  }

  // ---------------------------------------------------------------------------
  // Soft deletion
  // ---------------------------------------------------------------------------

  /** `destroySubAgent`: after the membership check, the definition is made
      inactive and the thread ARCHIVED, together. */
  function Destroy(t: Tables, userId: int, parentThreadId: int, threadId: int): (r: Result<Tables, BusinessException>)
    ensures r.Err? <==> SubAgentAccess(t, userId, parentThreadId, threadId).Err?
    ensures r.Err? ==> r.error == SubAgentAccess(t, userId, parentThreadId, threadId).error
  {
    match SubAgentAccess(t, userId, parentThreadId, threadId)
    case Err(e) => Err(e)
    case Ok(c) =>
      Ok(Tables(Replace(t.threads, c.thread.(status := ARCHIVED), ThreadId),
                Replace(t.defs, c.definition.(isActive := Some(false)), DefinitionId)))
  }

  /** A destroyed sub-agent is out of reach: every later call for its
      thread fails with THREAD_NOT_FOUND. */
  lemma DestroyedIsGone(t: Tables, tn: int, dn: int, userId: int, parentThreadId: int, threadId: int)
    requires t.Valid(tn, dn)
    requires Destroy(t, userId, parentThreadId, threadId).Ok?
    ensures var after := Destroy(t, userId, parentThreadId, threadId).value;
      && after.Valid(tn, dn)
      && SubAgentAccess(after, userId, parentThreadId, threadId) == Err(BizMsg(THREAD_NOT_FOUND, SUB_THREAD_MISSING))
  {
    var c := SubAgentAccess(t, userId, parentThreadId, threadId).value;
    var after := Destroy(t, userId, parentThreadId, threadId).value;
    var archived := c.thread.(status := ARCHIVED);
    ReplaceKeepsIdsIncreasing(t.threads, archived, ThreadId, tn);
    ReplaceKeepsIdsIncreasing(t.defs, c.definition.(isActive := Some(false)), DefinitionId, dn);
    LookupOfRow(t.threads, c.thread, ThreadId, tn);
    LookupAfterReplace(t.threads, archived, ThreadId, tn, threadId);
    ParentAfterArchiving(t.threads, tn, c.thread, userId, parentThreadId);
    AccessOfNotActive(after, userId, parentThreadId, threadId, archived);
  }

  /** A second ACTIVE thread of a destroyed sub-agent is no longer reachable
      either: its definition is inactive, so the call fails with
      AGENT_NOT_FOUND. */
  lemma SecondThreadOfDestroyed(t: Tables, tn: int, dn: int, userId: int, parentThreadId: int, threadId: int, other: AgentThread)
    requires t.Valid(tn, dn)
    requires Destroy(t, userId, parentThreadId, threadId).Ok?
    requires other in t.threads && other.id != threadId && other.status == ACTIVE && other.userId == userId
    requires other.agentId == SubAgentAccess(t, userId, parentThreadId, threadId).value.definition.id
    ensures SubAgentAccess(Destroy(t, userId, parentThreadId, threadId).value, userId, parentThreadId, other.id)
      == Err(BizMsg(AGENT_NOT_FOUND, SUB_AGENT_MISSING))
  {
    var c := SubAgentAccess(t, userId, parentThreadId, threadId).value;
    var archived := c.thread.(status := ARCHIVED);
    var inactive := c.definition.(isActive := Some(false));
    LookupOfRow(t.threads, c.thread, ThreadId, tn);
    LookupOfRow(t.threads, other, ThreadId, tn);
    LookupOfRow(t.defs, c.definition, DefinitionId, dn);
    LookupAfterReplace(t.threads, archived, ThreadId, tn, other.id);
    ParentAfterArchiving(t.threads, tn, c.thread, userId, parentThreadId);
    LookupAfterReplace(t.defs, inactive, DefinitionId, dn, c.definition.id);
    AccessOfInactive(Destroy(t, userId, parentThreadId, threadId).value, userId, parentThreadId, other.id, other, inactive);
  }

  // ---------------------------------------------------------------------------
  // Destroying the whole team
  // ---------------------------------------------------------------------------

  /** Where a sequence of destroys stopped: the tables then, and the failure
      that stopped it, if any. */
  datatype Cascade = Cascade(tables: Tables, failure: Option<BusinessException>)

  /** Destroys the listed sub-agents one after another; the first failure
      stops the loop, and what was destroyed before it stays destroyed. */
  function DestroyEach(t: Tables, userId: int, parentThreadId: int, infos: seq<SubAgentInfo>): Cascade
    decreases |infos|
  {
    if |infos| == 0 then Cascade(t, None)
    else match Destroy(t, userId, parentThreadId, infos[0].threadId)
      case Err(e) => Cascade(t, Some(e))
      case Ok(next) => DestroyEach(next, userId, parentThreadId, infos[1..])
  }

  /** `destroyAllByParentThread`: the listing, then each entry destroyed. */
  function DestroyAll(t: Tables, userId: int, parentThreadId: int): Cascade {
    match TeamListing(t, userId, parentThreadId)
    case Err(e) => Cascade(t, Some(e))
    case Ok(infos) => DestroyEach(t, userId, parentThreadId, infos)
  }

  function ArchiveIf(th: AgentThread, ids: set<int>): AgentThread {
    if th.id in ids then th.(status := ARCHIVED) else th
  }

  function DeactivateIf(d: AgentDefinition, ids: set<int>): AgentDefinition {
    if d.id in ids then d.(isActive := Some(false)) else d
  }

  /** The threads with the given ids ARCHIVED. */
  function ArchivedRows(rows: seq<AgentThread>, ids: set<int>): (r: seq<AgentThread>)
    ensures |r| == |rows|
    ensures forall i :: 0 <= i < |rows| ==> r[i] == ArchiveIf(rows[i], ids)
  {
    if |rows| == 0 then [] else [ArchiveIf(rows[0], ids)] + ArchivedRows(rows[1..], ids)
  }

  /** The definitions with the given ids made inactive. */
  function DeactivatedRows(rows: seq<AgentDefinition>, ids: set<int>): (r: seq<AgentDefinition>)
    ensures |r| == |rows|
    ensures forall i :: 0 <= i < |rows| ==> r[i] == DeactivateIf(rows[i], ids)
  {
    if |rows| == 0 then [] else [DeactivateIf(rows[0], ids)] + DeactivatedRows(rows[1..], ids)
  }

  lemma {:induction false} LookupArchived(rows: seq<AgentThread>, ids: set<int>, id: int)
    ensures Lookup(ArchivedRows(rows, ids), id, ThreadId)
      == if Lookup(rows, id, ThreadId).Some? then Some(ArchiveIf(Lookup(rows, id, ThreadId).value, ids)) else None
  {
    if |rows| > 0 {
      assert ArchivedRows(rows, ids)[1..] == ArchivedRows(rows[1..], ids);
      LookupArchived(rows[1..], ids, id);
    }
  }

  lemma {:induction false} LookupDeactivated(rows: seq<AgentDefinition>, ids: set<int>, id: int)
    ensures Lookup(DeactivatedRows(rows, ids), id, DefinitionId)
      == if Lookup(rows, id, DefinitionId).Some? then Some(DeactivateIf(Lookup(rows, id, DefinitionId).value, ids)) else None
  {
    if |rows| > 0 {
      assert DeactivatedRows(rows, ids)[1..] == DeactivatedRows(rows[1..], ids);
      LookupDeactivated(rows[1..], ids, id);
    }
  }

  lemma ReplaceArchivedAt(rows: seq<AgentThread>, next: int, ids: set<int>, row: AgentThread, i: int)
    requires IdsIncreasing(rows, ThreadId, next) && row in rows && 0 <= i < |rows|
    ensures Replace(ArchivedRows(rows, ids), row.(status := ARCHIVED), ThreadId)[i] == ArchivedRows(rows, ids + {row.id})[i]
  {
    var d := ArchivedRows(rows, ids);
    assert d[i] == ArchiveIf(rows[i], ids);
    assert d[i].id == rows[i].id;
    var r := Replace(d, row.(status := ARCHIVED), ThreadId);
    assert r[i] == if d[i].id == row.id then row.(status := ARCHIVED) else d[i];
    if rows[i].id == row.id {
      var k :| 0 <= k < |rows| && rows[k] == row;
      assert ThreadId(rows[i]) == ThreadId(rows[k]);
      assert rows[i] == row;
    }
  }

  /** Archiving one more stored thread adds its id to the archived set. */
  lemma ReplaceArchived(rows: seq<AgentThread>, tn: int, ids: set<int>, row: AgentThread)
    requires IdsIncreasing(rows, ThreadId, tn) && row in rows
    ensures Replace(ArchivedRows(rows, ids), row.(status := ARCHIVED), ThreadId) == ArchivedRows(rows, ids + {row.id})
  {
    var lhs := Replace(ArchivedRows(rows, ids), row.(status := ARCHIVED), ThreadId);
    var rhs := ArchivedRows(rows, ids + {row.id});
    forall i | 0 <= i < |rows| ensures lhs[i] == rhs[i] {
      ReplaceArchivedAt(rows, tn, ids, row, i);
    }
  }

  lemma ReplaceDeactivatedAt(rows: seq<AgentDefinition>, next: int, ids: set<int>, row: AgentDefinition, i: int)
    requires IdsIncreasing(rows, DefinitionId, next) && row in rows && 0 <= i < |rows|
    ensures Replace(DeactivatedRows(rows, ids), row.(isActive := Some(false)), DefinitionId)[i] == DeactivatedRows(rows, ids + {row.id})[i]
  {
    var d := DeactivatedRows(rows, ids);
    assert d[i] == DeactivateIf(rows[i], ids);
    assert d[i].id == rows[i].id;
    var r := Replace(d, row.(isActive := Some(false)), DefinitionId);
    assert r[i] == if d[i].id == row.id then row.(isActive := Some(false)) else d[i];
    if rows[i].id == row.id {
      var k :| 0 <= k < |rows| && rows[k] == row;
      assert DefinitionId(rows[i]) == DefinitionId(rows[k]);
      assert rows[i] == row;
    }
  }

  /** Deactivating one more stored definition adds its id to the set. */
  lemma ReplaceDeactivated(rows: seq<AgentDefinition>, dn: int, ids: set<int>, row: AgentDefinition)
    requires IdsIncreasing(rows, DefinitionId, dn) && row in rows
    ensures Replace(DeactivatedRows(rows, ids), row.(isActive := Some(false)), DefinitionId) == DeactivatedRows(rows, ids + {row.id})
  {
    var lhs := Replace(DeactivatedRows(rows, ids), row.(isActive := Some(false)), DefinitionId);
    var rhs := DeactivatedRows(rows, ids + {row.id});
    forall i | 0 <= i < |rows| ensures lhs[i] == rhs[i] {
      ReplaceDeactivatedAt(rows, dn, ids, row, i);
    }
  }

  function ThreadIdsOf(cs: seq<SubAgentContext>): set<int> {
    set c | c in cs :: c.thread.id
  }

  function DefinitionIdsOf(cs: seq<SubAgentContext>): set<int> {
    set c | c in cs :: c.definition.id
  }

  /** The tables once the given members are destroyed. */
  function AfterDestroying(t: Tables, cs: seq<SubAgentContext>): Tables {
    Tables(ArchivedRows(t.threads, ThreadIdsOf(cs)), DeactivatedRows(t.defs, DefinitionIdsOf(cs)))
  }

  /** No definition has more than one entry in the listing. */
  predicate OneThreadEach(cs: seq<SubAgentContext>) {
    forall j, k :: 0 <= j < k < |cs| ==> cs[j].definition.id != cs[k].definition.id
  }

  /** Archiving threads keeps an accessible parent thread accessible. */
  lemma ParentAfterDestroying(t: Tables, userId: int, parentThreadId: int, cs: seq<SubAgentContext>)
    requires ParentThread(t.threads, userId, parentThreadId).Ok?
    ensures ParentThread(AfterDestroying(t, cs).threads, userId, parentThreadId).Ok?
  {
    LookupArchived(t.threads, ThreadIdsOf(cs), parentThreadId);
  }

  /** Each destroy in the loop finds the next member as it was listed. */
  lemma DestroyStep(t: Tables, tn: int, dn: int, userId: int, parentThreadId: int, cs: seq<SubAgentContext>, k: int)
    requires t.Valid(tn, dn)
    requires ParentThread(t.threads, userId, parentThreadId).Ok?
    requires forall c :: c in cs ==> Member(c, t.defs, t.threads, userId) && c.definition.parentThreadId == Some(parentThreadId)
    requires OneThreadEach(cs)
    requires 0 <= k < |cs|
    ensures Destroy(AfterDestroying(t, cs[..k]), userId, parentThreadId, cs[k].thread.id) == Ok(AfterDestroying(t, cs[..k + 1]))
  {
    var c := cs[k];
    var done := cs[..k];
    StepFindsMember(t, tn, dn, userId, parentThreadId, cs, k);
    assert c in cs;
    ReplaceArchived(t.threads, tn, ThreadIdsOf(done), c.thread);
    ReplaceDeactivated(t.defs, dn, DefinitionIdsOf(done), c.definition);
    IdsOfNext(cs, k);
  }

  /** Before its own destroy, a listed member is still reachable, unchanged. */
  lemma StepFindsMember(t: Tables, tn: int, dn: int, userId: int, parentThreadId: int, cs: seq<SubAgentContext>, k: int)
    requires t.Valid(tn, dn)
    requires ParentThread(t.threads, userId, parentThreadId).Ok?
    requires forall c :: c in cs ==> Member(c, t.defs, t.threads, userId) && c.definition.parentThreadId == Some(parentThreadId)
    requires OneThreadEach(cs)
    requires 0 <= k < |cs|
    ensures SubAgentAccess(AfterDestroying(t, cs[..k]), userId, parentThreadId, cs[k].thread.id) == Ok(cs[k])
  {
    var c := cs[k];
    var done := cs[..k];
    var s := AfterDestroying(t, done);
    assert c in cs;
    LookupOfRow(t.threads, c.thread, ThreadId, tn);
    assert c.thread.id !in ThreadIdsOf(done);
    assert c.definition.id !in DefinitionIdsOf(done);
    LookupOfRow(t.defs, c.definition, DefinitionId, dn);
    LookupArchived(t.threads, ThreadIdsOf(done), c.thread.id);
    LookupDeactivated(t.defs, DefinitionIdsOf(done), c.definition.id);
    ParentAfterDestroying(t, userId, parentThreadId, done);
    AccessOfFound(s, userId, parentThreadId, c.thread.id, c.thread, c.definition);
  }

  lemma IdsOfNext(cs: seq<SubAgentContext>, k: int)
    requires 0 <= k < |cs|
    ensures ThreadIdsOf(cs[..k + 1]) == ThreadIdsOf(cs[..k]) + {cs[k].thread.id}
    ensures DefinitionIdsOf(cs[..k + 1]) == DefinitionIdsOf(cs[..k]) + {cs[k].definition.id}
  {
    assert cs[..k + 1] == cs[..k] + [cs[k]];
  }

  lemma DestroyFrom(t: Tables, tn: int, dn: int, userId: int, parentThreadId: int, cs: seq<SubAgentContext>, k: int)
    requires t.Valid(tn, dn)
    requires ParentThread(t.threads, userId, parentThreadId).Ok?
    requires forall c :: c in cs ==> Member(c, t.defs, t.threads, userId) && c.definition.parentThreadId == Some(parentThreadId)
    requires OneThreadEach(cs)
    requires 0 <= k <= |cs|
    ensures DestroyEach(AfterDestroying(t, cs[..k]), userId, parentThreadId, Infos(cs)[k..]) == Cascade(AfterDestroying(t, cs), None)
    decreases |cs| - k
  {
    if k == |cs| {
      assert cs[..k] == cs;
    } else {
      DestroyStep(t, tn, dn, userId, parentThreadId, cs, k);
      assert Infos(cs)[k..][0].threadId == cs[k].thread.id;
      assert Infos(cs)[k..][1..] == Infos(cs)[k + 1..];
      DestroyFrom(t, tn, dn, userId, parentThreadId, cs, k + 1);
    }
  }

  /** A member after destroying `cs` was already a member before, and its
      thread was not among the destroyed ones. */
  lemma SurvivorOfDestroying(t: Tables, cs: seq<SubAgentContext>, userId: int, parentThreadId: int, c: SubAgentContext)
    requires Member(c, WithParent(AfterDestroying(t, cs).defs, parentThreadId), AfterDestroying(t, cs).threads, userId)
    ensures c.thread.id !in ThreadIdsOf(cs)
    ensures Member(c, WithParent(t.defs, parentThreadId), t.threads, userId)
  {
    var s := AfterDestroying(t, cs);
    var i :| 0 <= i < |s.threads| && s.threads[i] == c.thread;
    assert s.threads[i] == ArchiveIf(t.threads[i], ThreadIdsOf(cs));
    assert c.definition in s.defs;
    var j :| 0 <= j < |s.defs| && s.defs[j] == c.definition;
    assert s.defs[j] == DeactivateIf(t.defs[j], DefinitionIdsOf(cs));
    assert t.defs[j] in t.defs;
  }

  lemma NoSequenceElement<T>(s: seq<T>)
    requires forall x :: x !in s
    ensures s == []
  {
    if s != [] {
      FirstIn(s);
      assert false;
    }
  }

  lemma FirstIn<T>(s: seq<T>)
    requires s != []
    ensures s[0] in s
  {
  }

  /** Once every member is destroyed, nobody is left on the team. */
  lemma NoMembersAfterDestroying(t: Tables, userId: int, parentThreadId: int)
    ensures var cs := Members(WithParent(t.defs, parentThreadId), t.threads, userId);
      var s := AfterDestroying(t, cs);
      Members(WithParent(s.defs, parentThreadId), s.threads, userId) == []
  {
    var cs := Members(WithParent(t.defs, parentThreadId), t.threads, userId);
    var s := AfterDestroying(t, cs);
    var left := Members(WithParent(s.defs, parentThreadId), s.threads, userId);
    MembersSpec(WithParent(s.defs, parentThreadId), s.threads, userId);
    MembersSpec(WithParent(t.defs, parentThreadId), t.threads, userId);
    forall c ensures c !in left {
      if c in left {
        SurvivorOfDestroying(t, cs, userId, parentThreadId, c);
        assert false;
      }
    }
    NoSequenceElement(left);
  }

  /** After `destroyAllByParentThread` on an accessible parent thread
      nothing is left on the team and no destroy failed, provided no
      sub-agent had two ACTIVE threads; an inaccessible parent thread stops
      it before any change. */
  lemma DestroyAllEmptiesTeam(t: Tables, tn: int, dn: int, userId: int, parentThreadId: int)
    requires t.Valid(tn, dn)
    requires OneThreadEach(Members(WithParent(t.defs, parentThreadId), t.threads, userId))
    ensures ParentThread(t.threads, userId, parentThreadId).Ok? ==>
      && DestroyAll(t, userId, parentThreadId).failure.None?
      && TeamListing(DestroyAll(t, userId, parentThreadId).tables, userId, parentThreadId) == Ok([])
    ensures ParentThread(t.threads, userId, parentThreadId).Err? ==>
      DestroyAll(t, userId, parentThreadId) == Cascade(t, Some(ParentThread(t.threads, userId, parentThreadId).error))
  {
    if ParentThread(t.threads, userId, parentThreadId).Ok? {
      var cs := Members(WithParent(t.defs, parentThreadId), t.threads, userId);
      MembersSpec(WithParent(t.defs, parentThreadId), t.threads, userId);
      assert AfterDestroying(t, cs[..0]) == t by {
        assert ThreadIdsOf(cs[..0]) == {} && DefinitionIdsOf(cs[..0]) == {};
        assert ArchivedRows(t.threads, {}) == t.threads;
        assert DeactivatedRows(t.defs, {}) == t.defs;
      }
      assert Infos(cs)[0..] == Infos(cs);
      DestroyFrom(t, tn, dn, userId, parentThreadId, cs, 0);
      NoMembersAfterDestroying(t, userId, parentThreadId);
      ParentAfterDestroying(t, userId, parentThreadId, cs);
    }
  }

  // ---------------------------------------------------------------------------
  // The chat turn and its rate-limit retry
  // ---------------------------------------------------------------------------

  /** What one call to the agent did: a reply, or an exception with its
      cause chain. */
  datatype Attempt = Replied(text: string) | Threw(chain: Chain)

  /** A failure `chatWithRetry` may retry: some cause is a `RateLimitException`. */
  predicate RateLimited(a: Attempt) {
    a.Threw? && IsRateLimitByName(a.chain)
  }

  /** What the environment does during one `chatWithRetry`: the outcome of
      each of the four attempts, the jitter drawn (`nextInt(10)`) before each
      of the three possible sleeps, and whether that sleep is interrupted. */
  datatype Script = Script(attempts: seq<Attempt>, jitters: seq<int>, interrupted: seq<bool>)
  {
    predicate WellFormed() {
      && |attempts| == MAX_RETRIES + 1 && |jitters| == MAX_RETRIES && |interrupted| == MAX_RETRIES
      && forall j :: 0 <= j < |jitters| ==> 0 <= jitters[j] < JITTER_BOUND
    }
  }

  /** Attempt `k` hit a rate limit with retries left, and its sleep ran out. */
  predicate Continues(s: Script, k: nat)
    requires s.WellFormed() && k <= MAX_RETRIES
  {
    k < MAX_RETRIES && RateLimited(s.attempts[k]) && !s.interrupted[k]
  }

  /** The attempt, from `k` on, at which the loop returns or rethrows: the
      first one that does not continue. */
  function FinalAttempt(s: Script, k: nat): (r: nat)
    requires s.WellFormed() && k <= MAX_RETRIES
    ensures k <= r <= MAX_RETRIES
    ensures !Continues(s, r)
    ensures forall j :: k <= j < r ==> Continues(s, j)
    decreases MAX_RETRIES - k
  {
    if Continues(s, k) then FinalAttempt(s, k + 1) else k
  }

  /** The reply `chatWithRetry` returns, or the exception it rethrows. */
  function RetryResult(s: Script): Result<string, Chain>
    requires s.WellFormed()
  {
    match s.attempts[FinalAttempt(s, 0)]
    case Replied(text) => Ok(text)
    case Threw(chain) => Err(chain)
  }

  /** The sleep before retry `j + 1`: `2^j * 15` seconds plus the jitter. */
  function Backoff(j: nat, jitter: int): int {
    Pow2(j) * BASE_BACKOFF_SECONDS + jitter
  }

  /** The first `n` sleeps, in order. */
  function Backoffs(jitters: seq<int>, n: nat): (r: seq<int>)
    requires n <= |jitters|
    ensures |r| == n
  {
    if n == 0 then [] else Backoffs(jitters, n - 1) + [Backoff(n - 1, jitters[n - 1])]
  }

  /** The sleeps begun: one per continued attempt, and one more when the
      final attempt's sleep was interrupted. */
  function SleepsBegun(s: Script): (r: nat)
    requires s.WellFormed()
    ensures r <= MAX_RETRIES
  {
    var f := FinalAttempt(s, 0);
    if f < MAX_RETRIES && RateLimited(s.attempts[f]) then f + 1 else f
  }

  /** `chatWithRetry`: up to four attempts; a rate limit on one of the first
      three sleeps `2^attempt * 15` seconds plus jitter and tries again; any
      other failure, a rate limit on the fourth attempt or an interrupted
      sleep rethrows the attempt's exception. */
  method ChatWithRetry(s: Script) returns (result: Result<string, Chain>, waits: seq<int>)
    requires s.WellFormed()
    ensures result == RetryResult(s)
    ensures waits == Backoffs(s.jitters, SleepsBegun(s))
  {
    waits := [];
    var attempt := 0;
    while true
      invariant 0 <= attempt <= MAX_RETRIES
      invariant FinalAttempt(s, attempt) == FinalAttempt(s, 0)
      invariant waits == Backoffs(s.jitters, attempt)
      decreases MAX_RETRIES - attempt
    {
      match s.attempts[attempt]
      case Replied(text) =>
        return Ok(text), waits;
      case Threw(chain) =>
        if IsRateLimitByName(chain) && attempt < MAX_RETRIES {
          var waitSeconds := Pow2(attempt) * BASE_BACKOFF_SECONDS + s.jitters[attempt];
          waits := waits + [waitSeconds];
          if s.interrupted[attempt] {
            return Err(chain), waits;
          }
        } else {
          return Err(chain), waits;
        }
      attempt := attempt + 1;
    }
  }

  /** Each sleep lies in `[2^j * 15, 2^j * 15 + 10)` seconds, and each is
      longer than the one before. */
  lemma {:induction false} BackoffsGrow(jitters: seq<int>, n: nat)
    requires n <= |jitters|
    requires forall j :: 0 <= j < |jitters| ==> 0 <= jitters[j] < JITTER_BOUND
    ensures forall j :: 0 <= j < n ==>
      Pow2(j) * BASE_BACKOFF_SECONDS <= Backoffs(jitters, n)[j] < Pow2(j) * BASE_BACKOFF_SECONDS + JITTER_BOUND
    ensures forall j :: 0 <= j < n - 1 ==> Backoffs(jitters, n)[j] < Backoffs(jitters, n)[j + 1]
  {
    if n > 0 {
      BackoffsGrow(jitters, n - 1);
      var r := Backoffs(jitters, n);
      assert r == Backoffs(jitters, n - 1) + [Backoff(n - 1, jitters[n - 1])];
      if n > 1 {
        assert Pow2(n - 1) == 2 * Pow2(n - 2);
        assert r[n - 2] < Pow2(n - 2) * BASE_BACKOFF_SECONDS + JITTER_BOUND;
      }
    }
  }

  /** The outcome of the retry loop: a reply is the first attempt that
      replied, reached only through rate limits whose sleeps ran out; a
      failure is the final attempt's own exception; a failure other than a
      rate limit ends the loop at once, without sleeping. */
  lemma RetryOutcome(s: Script)
    requires s.WellFormed()
    ensures forall k :: 0 <= k <= MAX_RETRIES && s.attempts[k].Replied? && (forall j :: 0 <= j < k ==> Continues(s, j)) ==>
      RetryResult(s) == Ok(s.attempts[k].text)
    ensures RetryResult(s).Ok? ==> exists k :: 0 <= k <= MAX_RETRIES && s.attempts[k] == Replied(RetryResult(s).value)
    ensures RetryResult(s).Err? ==> s.attempts[FinalAttempt(s, 0)] == Threw(RetryResult(s).error)
    ensures s.attempts[0].Threw? && !RateLimited(s.attempts[0]) ==> RetryResult(s) == Err(s.attempts[0].chain) && SleepsBegun(s) == 0
    ensures SleepsBegun(s) == MAX_RETRIES ==> RateLimited(s.attempts[MAX_RETRIES - 1])
  {
    var f := FinalAttempt(s, 0);
    forall k | 0 <= k <= MAX_RETRIES && s.attempts[k].Replied? && (forall j :: 0 <= j < k ==> Continues(s, j))
      ensures RetryResult(s) == Ok(s.attempts[k].text)
    {
      assert f == k;
    }
  }

  /** The note stored in place of a reply that failed. */
  function ReplyContent(outcome: Result<string, Chain>): (r: string)
    ensures outcome.Ok? ==> r == outcome.value
    ensures outcome.Err? ==> StartsWith(r, ERROR_PREFIX)
  {
    match outcome
    case Ok(text) => text
    case Err(chain) => ERROR_PREFIX + ExtractErrorMessage(chain)
  }

  /** The two messages one chat turn stores on the sub-agent's thread: the
      task as sent, then the reply or the error note. */
  function TurnMessages(threadId: int, message: string, outcome: Result<string, Chain>): seq<AgentMessage> {
    [AgentMessage(0, threadId, "user", message, None, 0, 0),
     AgentMessage(0, threadId, "assistant", ReplyContent(outcome), None, 0, 0)]
  }

  /** Why `chat` failed: a membership check, or the agent call. */
  datatype ChatFailure = Rejected(error: BusinessException) | Failed(chain: Chain)

  /** What the agent call gives: the factory's failure when the agent could
      not be built, otherwise the retry loop's outcome. */
  function CallOutcome(creationFailure: Option<Chain>, s: Script): Result<string, Chain>
    requires s.WellFormed()
  {
    if creationFailure.Some? then Err(creationFailure.value) else RetryResult(s)
  }

  /** A chat turn extends the thread's history by exactly the task and then
      the reply (or error note), stamped with the next two message ids. */
  lemma {:induction false} TurnHistory(rows: seq<AgentMessage>, next: int, threadId: int, message: string,
                                       outcome: Result<string, Chain>, now: int)
    ensures var added := Stamped(TurnMessages(threadId, message, outcome), next, now);
      && OfThread(rows + added, threadId) == OfThread(rows, threadId) + added
      && added[0].role == "user" && added[0].content == message && added[0].id == next
      && added[1].role == "assistant" && added[1].content == ReplyContent(outcome) && added[1].id == next + 1
  {
    var added := Stamped(TurnMessages(threadId, message, outcome), next, now);
    assert added == [added[0], added[1]];
    OfThreadAppendPair(rows, added[0], added[1], threadId);
  }

  /** The two stored turn messages, spelled out. */
  lemma StampedTurn(threadId: int, message: string, outcome: Result<string, Chain>, firstId: int, now: int)
    ensures Stamped(TurnMessages(threadId, message, outcome), firstId, now) ==
      [AgentMessage(firstId, threadId, "user", message, None, 0, now),
       AgentMessage(firstId + 1, threadId, "assistant", ReplyContent(outcome), None, 0, now)]
  {
  }

  /** Storing the two turn messages one after the other appends the
      stamped turn. */
  lemma TurnRows(rows: seq<AgentMessage>, threadId: int, message: string, outcome: Result<string, Chain>, firstId: int, now: int)
    ensures rows + [AgentMessage(firstId, threadId, "user", message, None, 0, now)]
      + [AgentMessage(firstId + 1, threadId, "assistant", ReplyContent(outcome), None, 0, now)]
      == rows + Stamped(TurnMessages(threadId, message, outcome), firstId, now)
  {
    StampedTurn(threadId, message, outcome, firstId, now);
  }

  /** Two messages of the thread appended to the table are appended to its
      history. */
  lemma OfThreadAppendPair(rows: seq<AgentMessage>, a: AgentMessage, b: AgentMessage, threadId: int)
    requires a.threadId == threadId && b.threadId == threadId
    ensures OfThread(rows + [a, b], threadId) == OfThread(rows, threadId) + [a, b]
  {
    assert rows + [a, b] == (rows + [a]) + [b];
    OfThreadAppend(rows, a, threadId);
    OfThreadAppend(rows + [a], b, threadId);
  }

  lemma MembersStep(defs: seq<AgentDefinition>, i: int, threads: seq<AgentThread>, userId: int)
    requires 0 <= i < |defs|
    ensures Members(defs[..i + 1], threads, userId) == Members(defs[..i], threads, userId) + MembersOf(defs[i], threads, userId)
  {
    assert defs[..i + 1][..i] == defs[..i];
  }

  // ---------------------------------------------------------------------------
  // The service
  // ---------------------------------------------------------------------------

  /** The sub-agent service over the type registry and the three tables. */
  class SubAgentService {
    const agentTypeRegistry: AgentTypeRegistry
    const definitions: AgentDefinitionRepository
    const threads: AgentThreadRepository
    const messages: AgentMessageRepository

    ghost predicate Valid()
      reads this, agentTypeRegistry, definitions, threads, messages
    {
      agentTypeRegistry.Valid() && definitions.Valid() && threads.Valid() && messages.Valid()
    }

    /** The two tables the membership checks read. */
    function Snapshot(): Tables
      reads this, threads, definitions
    {
      Tables(threads.rows, definitions.rows)
    }

    constructor (agentTypeRegistry: AgentTypeRegistry, definitions: AgentDefinitionRepository,
                 threads: AgentThreadRepository, messages: AgentMessageRepository)
      requires agentTypeRegistry.Valid() && definitions.Valid() && threads.Valid() && messages.Valid()
      ensures Valid()
      ensures this.agentTypeRegistry == agentTypeRegistry && this.definitions == definitions
      ensures this.threads == threads && this.messages == messages
    {
      this.agentTypeRegistry := agentTypeRegistry;
      this.definitions := definitions;
      this.threads := threads;
      this.messages := messages;
    }

    /** `createSubAgent`: the checks in order, then the definition and its
        thread inserted together; the name is the type, a dash and the first
        eight characters of a random UUID (`uuidPrefix`). */
    method CreateSubAgent(userId: int, parentThreadId: int, agentType: string, task: Option<string>,
                          additionalPrompt: Option<string>, additionalTools: Option<string>,
                          uuidPrefix: string, now: int) returns (r: Result<SubAgentInfo, BusinessException>)
      requires Valid()
      modifies definitions, threads
      ensures Valid()
      ensures var check := CreationCheck(old(Snapshot()), agentTypeRegistry.types, agentTypeRegistry.order,
                                         userId, parentThreadId, agentType);
        && (check.Err? ==> r == Err(check.error) && Snapshot() == old(Snapshot()))
        && (check.Ok? ==>
              var name := SubAgentName(agentType, uuidPrefix);
              && Snapshot() == AfterCreation(old(Snapshot()), check.value, userId, parentThreadId, name, task,
                                             additionalPrompt, additionalTools, old(definitions.nextId), old(threads.nextId), now)
              && r == Ok(SubAgentInfo(name, old(threads.nextId), agentType, Some(check.value.descriptor.description))))
    {
      var descriptor := agentTypeRegistry.GetType(agentType);
      if descriptor.None? {
        return Err(BizMsg(PARAM_VALIDATION_FAILED, UnknownTypeMessage(agentType, agentTypeRegistry.GetRegisteredTypeNames())));
      }
      var parentThread := threads.FindById(parentThreadId);
      if parentThread.None? {
        return Err(BizMsg(THREAD_NOT_FOUND, PARENT_THREAD_MISSING));
      }
      if parentThread.value.userId != userId {
        return Err(BizMsg(THREAD_ACCESS_DENIED, PARENT_THREAD_DENIED));
      }
      if parentThread.value.status == DELETED {
        return Err(BizMsg(THREAD_NOT_FOUND, PARENT_THREAD_MISSING));
      }
      var parentAgent := definitions.FindById(parentThread.value.agentId);
      if parentAgent.None? {
        return Err(BizMsg(AGENT_NOT_FOUND, PARENT_AGENT_MISSING));
      }
      var lead := parentAgent.value;
      if !Factory.HasSubAgentTool(lead.toolNames) {
        return Err(BizMsg(AGENT_ACCESS_DENIED, NESTING_DENIED));
      }
      var d := descriptor.value;
      var systemPrompt := BuildSystemPrompt(d.promptContent, additionalPrompt);
      var mergedTools := BuildToolNames(d.defaultTools, additionalTools);
      var agentName := SubAgentName(agentType, uuidPrefix);
      var agent := AgentDefinition(
        0, userId, agentName, Some(d.description), Some(TASK_PREFIX + task.GetOr("")),
        NullIfEmpty(systemPrompt), None, lead.provider, lead.modelName, NullIfEmpty(mergedTools), None,
        Some(SUB_AGENT_MEMORY_WINDOW), lead.temperature, lead.maxTokens, Some(true), Some(parentThreadId));
      var agentId := definitions.Insert(agent);
      var thread := AgentThread(0, agentId, userId, Some(d.description), ACTIVE, Some(0), Some(0), None, false, 0);
      var threadId := threads.Insert(thread, now);
      return Ok(SubAgentInfo(agentName, threadId, agentType, Some(d.description)));
    }

    /** `chat`: the membership check, then the task stored, then the agent
        call (`creationFailure` when the factory could not build the agent),
        then the reply or the error note stored; each store bumps the
        thread's message counter. */
    method Chat(userId: int, parentThreadId: int, threadId: int, message: string, creationFailure: Option<Chain>,
                s: Script, now: int) returns (r: Result<string, ChatFailure>, waits: seq<int>)
      requires Valid() && s.WellFormed()
      modifies messages, threads
      ensures Valid()
      ensures var access := SubAgentAccess(old(Snapshot()), userId, parentThreadId, threadId);
        && (access.Err? ==>
              && r == Err(Rejected(access.error)) && waits == []
              && messages.rows == old(messages.rows) && threads.rows == old(threads.rows))
        && (access.Ok? ==>
              var outcome := CallOutcome(creationFailure, s);
              && messages.rows == old(messages.rows) + Stamped(TurnMessages(threadId, message, outcome), old(messages.nextId), now)
              && threads.rows == Incremented(old(threads.rows), threadId, 2, now)
              && r == (if outcome.Ok? then Ok(outcome.value) else Err(Failed(outcome.error)))
              && waits == (if creationFailure.Some? then [] else Backoffs(s.jitters, SleepsBegun(s))))
    {
      var access := SubAgentAccess(Snapshot(), userId, parentThreadId, threadId);
      if access.Err? {
        return Err(Rejected(access.error)), [];
      }
      r, waits := RecordTurn(threadId, message, creationFailure, s, now);
    }

    /** The part of `chat` after the membership check. */
    method RecordTurn(threadId: int, message: string, creationFailure: Option<Chain>, s: Script, now: int)
      returns (r: Result<string, ChatFailure>, waits: seq<int>)
      requires Valid() && s.WellFormed()
      modifies messages, threads
      ensures Valid()
      ensures var outcome := CallOutcome(creationFailure, s);
        && messages.rows == old(messages.rows) + Stamped(TurnMessages(threadId, message, outcome), old(messages.nextId), now)
        && threads.rows == Incremented(old(threads.rows), threadId, 2, now)
        && r == (if outcome.Ok? then Ok(outcome.value) else Err(Failed(outcome.error)))
        && waits == (if creationFailure.Some? then [] else Backoffs(s.jitters, SleepsBegun(s)))
    {
      ghost var threads0 := threads.rows;
      ghost var rows0 := messages.rows;
      ghost var n0 := messages.nextId;
      StoreMessage(threadId, "user", message, now);
      var outcome: Result<string, Chain>;
      waits := [];
      if creationFailure.Some? {
        outcome := Err(creationFailure.value);
      } else {
        outcome, waits := ChatWithRetry(s);
      }
      StoreMessage(threadId, "assistant", ReplyContent(outcome), now);
      IncrementsCompose(threads0, threadId, 1, 1, now, now);
      TurnRows(rows0, threadId, message, outcome, n0, now);
      r := if outcome.Ok? then Ok(outcome.value) else Err(Failed(outcome.error));
    }

    /** One message of a turn: inserted under the next id, and the thread's
        message count raised by one. */
    method StoreMessage(threadId: int, role: string, content: string, now: int)
      requires Valid()
      modifies messages, threads
      ensures Valid()
      ensures messages.nextId == old(messages.nextId) + 1
      ensures messages.rows == old(messages.rows) + [AgentMessage(old(messages.nextId), threadId, role, content, None, 0, now)]
      ensures threads.rows == Incremented(old(threads.rows), threadId, 1, now)
    {
      var _ := messages.Insert(AgentMessage(0, threadId, role, content, None, 0, 0), now);
      threads.IncrementMessageCount(threadId, 1, now);
    }

    /** `destroySubAgent`: after the membership check, the definition made
        inactive and the thread ARCHIVED. */
    method DestroySubAgent(userId: int, parentThreadId: int, threadId: int) returns (failure: Option<BusinessException>)
      requires Valid()
      modifies definitions, threads
      ensures Valid()
      ensures var d := Destroy(old(Snapshot()), userId, parentThreadId, threadId);
        && (d.Err? ==> failure == Some(d.error) && Snapshot() == old(Snapshot()))
        && (d.Ok? ==> failure == None && Snapshot() == d.value)
    {
      var access := SubAgentAccess(Snapshot(), userId, parentThreadId, threadId);
      if access.Err? {
        return Some(access.error);
      }
      var c := access.value;
      definitions.Update(c.definition.(isActive := Some(false)));
      threads.Update(c.thread.(status := ARCHIVED));
      return None;
    }

    /** `listTeamAgents`: after the parent check, for every active definition
        of the user under the parent thread, each of its ACTIVE threads. */
    method ListTeamAgents(userId: int, parentThreadId: int) returns (r: Result<seq<SubAgentInfo>, BusinessException>)
      requires Valid()
      ensures r == TeamListing(Snapshot(), userId, parentThreadId)
    {
      var parent := ParentThread(threads.rows, userId, parentThreadId);
      if parent.Err? {
        return Err(parent.error);
      }
      var allAgents := definitions.FindByParentThreadId(parentThreadId);
      var result: seq<SubAgentInfo> := [];
      for i := 0 to |allAgents|
        invariant result == Infos(Members(allAgents[..i], threads.rows, userId))
      {
        var agent := allAgents[i];
        var entries: seq<SubAgentInfo> := [];
        if agent.IsActive() && agent.userId == userId {
          var ts := threads.FindByUserIdAndAgentId(agent.userId, agent.id);
          entries := ActiveEntries(agent, ts);
        }
        MembersStep(allAgents, i, threads.rows, userId);
        InfosAppend(Members(allAgents[..i], threads.rows, userId), MembersOf(agent, threads.rows, userId));
        result := result + entries;
      }
      assert allAgents[..|allAgents|] == allAgents;
      return Ok(result);
    }

    /** The inner loop of `listTeamAgents`: an entry per ACTIVE thread, the
        type read back from the definition's name. */
    static method ActiveEntries(agent: AgentDefinition, ts: seq<AgentThread>) returns (entries: seq<SubAgentInfo>)
      ensures entries == Infos(ActiveOf(agent, ts))
    {
      entries := [];
      for j := 0 to |ts|
        invariant entries == Infos(ActiveOf(agent, ts[..j]))
      {
        assert ts[..j + 1][..j] == ts[..j];
        if ts[j].status == ACTIVE {
          InfosAppend(ActiveOf(agent, ts[..j]), [SubAgentContext(ts[j], agent)]);
          entries := entries + [SubAgentInfo(agent.name, ts[j].id, TypeOfName(agent.name), agent.displayName)];
        }
      }
      assert ts[..|ts|] == ts;
    }

    /** `destroyAllByParentThread`: the team listing, then each listed
        sub-agent destroyed in turn; the first failure stops it. */
    method DestroyAllByParentThread(userId: int, parentThreadId: int) returns (failure: Option<BusinessException>)
      requires Valid()
      modifies definitions, threads
      ensures Valid()
      ensures Cascade(Snapshot(), failure) == DestroyAll(old(Snapshot()), userId, parentThreadId)
    {
      var listing := ListTeamAgents(userId, parentThreadId);
      if listing.Err? {
        return Some(listing.error);
      }
      var infos := listing.value;
      ghost var start := Snapshot();
      for i := 0 to |infos|
        invariant Valid()
        invariant DestroyEach(start, userId, parentThreadId, infos) == DestroyEach(Snapshot(), userId, parentThreadId, infos[i..])
      {
        assert infos[i..][1..] == infos[i + 1..];
        failure := DestroySubAgent(userId, parentThreadId, infos[i].threadId);
        if failure.Some? {
          return;
        }
      }
      assert infos[|infos|..] == [];
      return None;
    }
  }
}
