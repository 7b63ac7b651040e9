/** The helpers the agent factory assembles an agent with: provider and
    output-token resolution, the scoped request parameters and attributes,
    the memory window, the skill list, the additional prompt context and the
    tool collection. */
module Factory {
  import opened Wrappers
  import opened Strs
  import opened Domain
  import opened Providers
  import opened ResultCodes
  import opened Tools
  import opened Skills
  import opened AgentTypes
  import opened Messages

  const SUB_AGENT_TOOL: string := "subAgentTool"
  const SKILL_LOADER_TOOL: string := "skillLoaderTool"
  const DEFAULT_MEMORY_WINDOW_SIZE: int := 40
  const DEFAULT_MAX_OUTPUT_TOKENS: int := 32768
  const ANTHROPIC_SAFE_MAX_OUTPUT_TOKENS: int := 32768
  const TRACE_ID_KEY: string := "traceId"
  const THREAD_ID_KEY: string := "threadId"
  const UNSUPPORTED_PROVIDER: string := "不支持的模型供应商"

  // ---------------------------------------------------------------------------
  // Provider, token cap, request parameters
  // ---------------------------------------------------------------------------

  /** `resolveProvider`: the vendor named case-insensitively, or
      AGENT_PROVIDER_UNAVAILABLE. */
  function ResolveProvider(provider: Option<string>): (r: Result<ModelProvider, BusinessException>)
    ensures forall p: ModelProvider :: r == Ok(p) <==> provider.Some? && ToUpper(provider.value) == p.Name()
    ensures r.Err? ==> r.error == BizMsg(AGENT_PROVIDER_UNAVAILABLE, UNSUPPORTED_PROVIDER)
  {
    match ParseIgnoreCase(provider)
    case Some(p) => Ok(p)
    case None => Err(BizMsg(AGENT_PROVIDER_UNAVAILABLE, UNSUPPORTED_PROVIDER))
  }

  predicate Positive(n: Option<int>) {
    n.Some? && n.value > 0
  }

  /** `resolveMaxOutputTokens`: a non-positive configured value counts as
      absent; Anthropic gets the configured value or the default, capped at
      the safe maximum; other vendors get the configured value. */
  function ResolveMaxOutputTokens(configured: Option<int>, p: ModelProvider): (r: Option<int>)
    ensures p == ANTHROPIC ==> r.Some? && 0 < r.value <= ANTHROPIC_SAFE_MAX_OUTPUT_TOKENS
    ensures p == ANTHROPIC && Positive(configured) && configured.value <= ANTHROPIC_SAFE_MAX_OUTPUT_TOKENS ==> r == configured
    ensures p == ANTHROPIC && !(Positive(configured) && configured.value <= ANTHROPIC_SAFE_MAX_OUTPUT_TOKENS)
      ==> r == Some(ANTHROPIC_SAFE_MAX_OUTPUT_TOKENS)
    ensures p != ANTHROPIC ==> r == if Positive(configured) then configured else None
  {
    var c := if Positive(configured) then configured else None;
    if p == ANTHROPIC then
      var desired := if c.Some? then c.value else DEFAULT_MAX_OUTPUT_TOKENS;
      Some(if desired < ANTHROPIC_SAFE_MAX_OUTPUT_TOKENS then desired else ANTHROPIC_SAFE_MAX_OUTPUT_TOKENS)
    else c
  }

  /** Resolving a resolved value changes nothing. */
  lemma ResolveMaxOutputTokensStable(configured: Option<int>, p: ModelProvider)
    ensures ResolveMaxOutputTokens(ResolveMaxOutputTokens(configured, p), p) == ResolveMaxOutputTokens(configured, p)
  {
  }

  /** The request parameters an agent's model calls are scoped to. */
  datatype ChatRequestParameters = ChatRequestParameters(
    modelName: Option<string>,
    temperature: Option<real>,
    maxOutputTokens: Option<int>)

  /** `buildScopedRequestParameters`: model name and temperature from the
      definition; the resolved token cap only for vendors other than OpenAI. */
  function ScopedRequestParameters(d: AgentDefinition, p: ModelProvider): (r: ChatRequestParameters)
    ensures r.modelName == d.modelName && r.temperature == d.temperature
    ensures r.maxOutputTokens.Some? <==> p == ANTHROPIC || (p == GEMINI && Positive(d.maxTokens))
    ensures r.maxOutputTokens.Some? ==> r.maxOutputTokens == ResolveMaxOutputTokens(d.maxTokens, p) && r.maxOutputTokens.value > 0
    ensures p == ANTHROPIC ==> r.maxOutputTokens.value <= ANTHROPIC_SAFE_MAX_OUTPUT_TOKENS
  {
    var resolved := ResolveMaxOutputTokens(d.maxTokens, p);
    ChatRequestParameters(d.modelName, d.temperature,
      if resolved.Some? && p != OPENAI then resolved else None)
  }

  /** `buildMemory`: the window is the configured size, or 40. */
  function MemoryWindow(d: AgentDefinition): (r: int)
    ensures d.memoryWindowSize.Some? ==> r == d.memoryWindowSize.value
    ensures d.memoryWindowSize.None? ==> r == DEFAULT_MEMORY_WINDOW_SIZE
  {
    d.memoryWindowSize.GetOr(DEFAULT_MEMORY_WINDOW_SIZE)
  }

  /** `buildRequestAttributes`: the trace id of the current request when it
      is set and not blank, else `"thread-" + threadId`; and the thread id. */
  method BuildRequestAttributes(threadId: int, mdcTraceId: Option<string>) returns (attributes: map<string, AttributeValue>)
    ensures attributes.Keys == {TRACE_ID_KEY, THREAD_ID_KEY}
    ensures attributes[THREAD_ID_KEY] == Number(threadId)
    ensures mdcTraceId.Some? && !IsBlank(mdcTraceId.value) ==> attributes[TRACE_ID_KEY] == Text(mdcTraceId.value)
    ensures !(mdcTraceId.Some? && !IsBlank(mdcTraceId.value)) ==> attributes[TRACE_ID_KEY] == Text("thread-" + IntToString(threadId))
    ensures attributes[TRACE_ID_KEY].Text? && !IsBlank(attributes[TRACE_ID_KEY].text)
  {
    attributes := map[];
    var traceId: string;
    if mdcTraceId.None? || IsBlank(mdcTraceId.value) {
      traceId := "thread-" + IntToString(threadId);
      NotBlank(traceId, 0);
    } else {
      traceId := mdcTraceId.value;
    }
    attributes := attributes[TRACE_ID_KEY := Text(traceId)];
    attributes := attributes[THREAD_ID_KEY := Number(threadId)];
  }

  // ---------------------------------------------------------------------------
  // Tool names and skill names
  // ---------------------------------------------------------------------------

  /** Every trimmed piece of a blank text is blank. */
  lemma BlankPieces(s: string)
    requires IsBlank(s)
    ensures forall x :: x in TrimAll(Split(s, ',')) ==> IsBlank(x)
  {
    var pieces := Split(s, ',');
    var trimmed := TrimAll(pieces);
    SplitPiecesFromInput(s, ',');
    forall x | x in trimmed
      ensures IsBlank(x)
    {
      var i :| 0 <= i < |trimmed| && trimmed[i] == x;
      var p := pieces[i];
      assert p in pieces;
      TrimChars(p);
      forall j | 0 <= j < |x|
        ensures IsWhitespace(x[j])
      {
        assert x[j] in p;
        var m :| 0 <= m < |s| && s[m] == x[j];
      }
    }
  }

  lemma SubAgentToolVisible()
    ensures !IsBlank(SUB_AGENT_TOOL)
  {
    NotBlank(SUB_AGENT_TOOL, 0);
  }

  /** A tool list naming only the sub-agent tool has it. */
  lemma SubAgentToolAlone()
    ensures HasSubAgentTool(Some(SUB_AGENT_TOOL))
  {
    var n := SUB_AGENT_TOOL;
    assert ',' !in n;
    TrimOfVisibleEnds(n);
    TokensOfClean(n);
  }

  /** `hasSubAgentTool`: one of the comma-separated tool names is
      `subAgentTool` after trimming. */
  function HasSubAgentTool(toolNames: Option<string>): (r: bool)
    ensures r <==> toolNames.Some? && SUB_AGENT_TOOL in Tokens(toolNames.value)
  {
    if toolNames.None? then false
    else if IsBlank(toolNames.value) then
      SubAgentToolVisible();
      BlankPieces(toolNames.value);
      false
    else SUB_AGENT_TOOL in TrimAll(Split(toolNames.value, ','))
  }

  /** `parseSkillNames`: null or blank gives no names; otherwise the
      comma-separated names, trimmed, empty ones dropped, in order. */
  function ParseSkillNames(skillNames: Option<string>): (r: seq<string>)
    ensures skillNames.None? || IsBlank(skillNames.value) ==> r == []
    ensures forall n :: n in r ==> n != "" && ',' !in n && Trim(n) == n
  {
    if skillNames.None? || IsBlank(skillNames.value) then []
    else
      TokensAreClean(skillNames.value);
      Tokens(skillNames.value)
  }

  /** Names that are clean and not blank, stored comma-joined, parse back to
      the same list. */
  lemma ParseSkillNamesOfJoin(names: seq<string>)
    requires |names| >= 1
    requires forall n :: n in names ==> !IsBlank(n) && ',' !in n && Trim(n) == n
    ensures ParseSkillNames(Some(Join(names, ","))) == names
  {
    var joined := Join(names, ",");
    var first := names[0];
    assert first in names;
    var c := VisibleChar(first);
    var k :| 0 <= k < |first| && first[k] == c;
    JoinStartsWithFirst(names, ",");
    assert joined[k] == joined[..|first|][k] == first[k];
    NotBlank(joined, k);
    forall n | n in names
      ensures n != "" && ',' !in n && Trim(n) == n
    {
    }
    TokensOfJoin(names);
  }

  // ---------------------------------------------------------------------------
  // Insertion-ordered name sets
  // ---------------------------------------------------------------------------

  /** `LinkedHashSet.addAll`: each name not yet present is appended. */
  function AddAll(acc: seq<string>, xs: seq<string>): seq<string> {
    if |xs| == 0 then acc
    else
      var before := AddAll(acc, xs[..|xs| - 1]);
      var last := xs[|xs| - 1];
      if last in before then before else before + [last]
  }

  /** Adding one more name appends it exactly when it is new. */
  lemma AddAllSnoc(acc: seq<string>, xs: seq<string>, x: string)
    ensures var before := AddAll(acc, xs);
      AddAll(acc, xs + [x]) == if x in before then before else before + [x]
  {
    assert (xs + [x])[..|xs|] == xs;
  }

  /** `addAll` keeps what was there, in place, adds exactly the new names and
      never introduces a repeat. */
  lemma {:induction false} AddAllSpec(acc: seq<string>, xs: seq<string>)
    ensures var r := AddAll(acc, xs);
      (forall x :: x in r <==> x in acc || x in xs)
      && (Distinct(acc) ==> Distinct(r))
      && |acc| <= |r| && r[..|acc|] == acc
  {
    if |xs| > 0 {
      var init, last := xs[..|xs| - 1], xs[|xs| - 1];
      AddAllSpec(acc, init);
      assert xs == init + [last];
      assert forall x :: x in xs <==> x in init || x == last;
    }
  }

  /** `LinkedHashSet.remove`. */
  function Remove(s: seq<string>, x: string): seq<string> {
    if |s| == 0 then []
    else
      var before := Remove(s[..|s| - 1], x);
      var last := s[|s| - 1];
      if last == x then before else before + [last]
  }

  /** `remove` drops exactly the one name. */
  lemma {:induction false} RemoveSpec(s: seq<string>, x: string)
    ensures forall y :: y in Remove(s, x) <==> y in s && y != x
    ensures Distinct(s) ==> Distinct(Remove(s, x))
  {
    if |s| > 0 {
      var init, last := s[..|s| - 1], s[|s| - 1];
      RemoveSpec(init, x);
      assert s == init + [last];
      assert forall y :: y in s <==> y in init || y == last;
      assert Distinct(s) ==> last !in init;
    }
  }

  /** Each skill's tool names added in skill order. */
  function AddSkillTools(acc: seq<string>, skills: seq<SkillDescriptor>): seq<string> {
    if |skills| == 0 then acc
    else AddAll(AddSkillTools(acc, skills[..|skills| - 1]), skills[|skills| - 1].toolNames)
  }

  lemma AddSkillToolsSnoc(acc: seq<string>, skills: seq<SkillDescriptor>, s: SkillDescriptor)
    ensures AddSkillTools(acc, skills + [s]) == AddAll(AddSkillTools(acc, skills), s.toolNames)
  {
    assert (skills + [s])[..|skills|] == skills;
  }

  /** Every skill's tool names end up in the set, and nothing else is added. */
  lemma {:induction false} AddSkillToolsSpec(acc: seq<string>, skills: seq<SkillDescriptor>)
    ensures forall x :: x in AddSkillTools(acc, skills) <==> x in acc || exists k :: 0 <= k < |skills| && x in skills[k].toolNames
    ensures Distinct(acc) ==> Distinct(AddSkillTools(acc, skills))
  {
    if |skills| > 0 {
      var init, last := skills[..|skills| - 1], skills[|skills| - 1];
      AddSkillToolsSpec(acc, init);
      AddAllSpec(AddSkillTools(acc, init), last.toolNames);
      forall x
        ensures (exists k :: 0 <= k < |skills| && x in skills[k].toolNames)
          <==> (exists k :: 0 <= k < |init| && x in init[k].toolNames) || x in last.toolNames
      {
        if k :| 0 <= k < |skills| && x in skills[k].toolNames {
          if k < |init| {
            assert x in init[k].toolNames;
          }
        }
        if k :| 0 <= k < |init| && x in init[k].toolNames {
          assert x in skills[k].toolNames;
        }
        if x in last.toolNames {
          assert x in skills[|skills| - 1].toolNames;
        }
      }
    }
  }

  /** The agent's own tool names, in order, without repeats. */
  function OwnToolNames(toolNames: Option<string>): (r: seq<string>)
    ensures Distinct(r)
    ensures forall x :: x in r <==> toolNames.Some? && !IsBlank(toolNames.value) && x in Tokens(toolNames.value)
  {
    if toolNames.None? || IsBlank(toolNames.value) then []
    else AddAllSpec([], Tokens(toolNames.value)); AddAll([], Tokens(toolNames.value))
  }

  /** The name set `collectTools` hands to the tool registry: the agent's own
      tools without `subAgentTool`, the skill loader when some skill
      resolved, then the tools the skills reference. */
  function ToolNameSet(toolNames: Option<string>, skills: seq<SkillDescriptor>): seq<string> {
    var own := Remove(OwnToolNames(toolNames), SUB_AGENT_TOOL);
    var withLoader := if |skills| > 0 then AddAll(own, [SKILL_LOADER_TOOL]) else own;
    AddSkillTools(withLoader, skills)
  }

  /** The requested names hold no repeats, and are exactly the agent's own
      names other than `subAgentTool`, the skill loader when a skill resolved,
      and the names the skills reference. */
  lemma ToolNameSetSpec(toolNames: Option<string>, skills: seq<SkillDescriptor>)
    ensures Distinct(ToolNameSet(toolNames, skills))
    ensures forall x :: x in ToolNameSet(toolNames, skills) <==>
      (x in OwnToolNames(toolNames) && x != SUB_AGENT_TOOL)
      || (|skills| > 0 && x == SKILL_LOADER_TOOL)
      || (exists k :: 0 <= k < |skills| && x in skills[k].toolNames)
  {
    var own := Remove(OwnToolNames(toolNames), SUB_AGENT_TOOL);
    RemoveSpec(OwnToolNames(toolNames), SUB_AGENT_TOOL);
    AddAllSpec(own, [SKILL_LOADER_TOOL]);
    var withLoader := if |skills| > 0 then AddAll(own, [SKILL_LOADER_TOOL]) else own;
    AddSkillToolsSpec(withLoader, skills);
  }

  /** `subAgentTool` is never asked of the tool registry unless a skill
      itself references it. */
  lemma NoSubAgentToolRequested(toolNames: Option<string>, skills: seq<SkillDescriptor>)
    requires forall k :: 0 <= k < |skills| ==> SUB_AGENT_TOOL !in skills[k].toolNames
    ensures SUB_AGENT_TOOL !in ToolNameSet(toolNames, skills)
  {
    ToolNameSetSpec(toolNames, skills);
  }

  /** The skill loader is requested when a skill resolved, and otherwise
      only when the agent configures it itself. */
  lemma SkillLoaderRequested(toolNames: Option<string>, skills: seq<SkillDescriptor>)
    ensures |skills| > 0 ==> SKILL_LOADER_TOOL in ToolNameSet(toolNames, skills)
    ensures |skills| == 0 ==> (SKILL_LOADER_TOOL in ToolNameSet(toolNames, skills) <==> SKILL_LOADER_TOOL in OwnToolNames(toolNames))
  {
    ToolNameSetSpec(toolNames, skills);
  }

  /** The skills' own tool beans, in skill order. */
  function SelfToolBeans(skills: seq<SkillDescriptor>): (r: seq<Bean>)
    ensures |r| <= |skills|
    ensures forall b :: b in r <==> exists k :: 0 <= k < |skills| && skills[k].selfToolBean == Some(b)
  {
    if |skills| == 0 then []
    else
      var last := skills[|skills| - 1];
      assert forall k :: 0 <= k < |skills| - 1 ==> skills[..|skills| - 1][k] == skills[k];
      SelfToolBeans(skills[..|skills| - 1]) + (if last.selfToolBean.Some? then [last.selfToolBean.value] else [])
  }

  /** The tool objects of an agent: registry beans for the name set, the
      skills' own beans, then the extra tools. */
  function CollectedTools(toolNames: Option<string>, skills: seq<SkillDescriptor>, toolBeans: map<string, Bean>, extraTools: seq<Bean>): (r: seq<Bean>)
    ensures |extraTools| <= |r| <= |ToolNameSet(toolNames, skills)| + |skills| + |extraTools|
    ensures r[|r| - |extraTools|..] == extraTools
    ensures forall b :: b in r[..|r| - |extraTools|] ==> b in toolBeans.Values || exists k :: 0 <= k < |skills| && skills[k].selfToolBean == Some(b)
  {
    Lookups(toolBeans, ToolNameSet(toolNames, skills)) + SelfToolBeans(skills) + extraTools
  }

  // ---------------------------------------------------------------------------
  // Additional prompt context
  // ---------------------------------------------------------------------------

  /** `buildAdditionalContext`: the skill catalog unless blank, then, for an
      agent with `subAgentTool`, a blank line if something precedes it and
      the type catalog. */
  function AdditionalContext(skillCatalog: string, hasSubAgentTool: bool, typeCatalog: string): string {
    var sb := if IsBlank(skillCatalog) then "" else skillCatalog;
    if hasSubAgentTool then sb + (if sb == "" then "" else "\n\n") + typeCatalog else sb
  }

  /** Over the catalogs the registries produce: the skill catalog alone
      without `subAgentTool`, and with it the skill catalog, the separator
      only when that catalog is non-empty, and the type catalog. */
  lemma ContextOfCatalogs(skills: map<string, SkillDescriptor>, names: seq<string>, hasSubAgentTool: bool, typeCatalog: string)
    ensures var c := Catalog(skills, names);
      AdditionalContext(c, hasSubAgentTool, typeCatalog)
      == if hasSubAgentTool then c + (if c == "" then "" else "\n\n") + typeCatalog else c
  {
    CatalogVisible(skills, names);
  }

  /** The first half of `collectTools`: the agent's own tokens into an
      insertion-ordered set, `subAgentTool` removed, the skill loader added
      when a skill resolved, then each skill's tool names. */
  method RequestedToolNames(toolNames: Option<string>, skills: seq<SkillDescriptor>) returns (names: seq<string>)
    ensures names == ToolNameSet(toolNames, skills)
  {
    names := [];
    if toolNames.Some? && !IsBlank(toolNames.value) {
      names := AddEach([], Tokens(toolNames.value));
    }
    names := Remove(names, SUB_AGENT_TOOL);
    ghost var ghostRemoved := names;
    if |skills| > 0 && SKILL_LOADER_TOOL !in names {
      names := names + [SKILL_LOADER_TOOL];
    }
    if |skills| > 0 {
      assert [SKILL_LOADER_TOOL] == [] + [SKILL_LOADER_TOOL];
      AddAllSnoc(ghostRemoved, [], SKILL_LOADER_TOOL);
    }
    names := AddSkillToolNames(names, skills);
  }

  /** Adding names one by one to an insertion-ordered set. */
  method AddEach(acc: seq<string>, xs: seq<string>) returns (names: seq<string>)
    ensures names == AddAll(acc, xs)
  {
    names := acc;
    var i := 0;
    while i < |xs|
      invariant 0 <= i <= |xs|
      invariant names == AddAll(acc, xs[..i])
    {
      assert xs[..i + 1] == xs[..i] + [xs[i]];
      AddAllSnoc(acc, xs[..i], xs[i]);
      if xs[i] !in names {
        names := names + [xs[i]];
      }
      i := i + 1;
    }
    assert xs[..i] == xs;
  }

  /** The second half of the name collection: each skill's tool names, in
      skill order. */
  method AddSkillToolNames(acc: seq<string>, skills: seq<SkillDescriptor>) returns (names: seq<string>)
    ensures names == AddSkillTools(acc, skills)
  {
    names := acc;
    var j := 0;
    while j < |skills|
      invariant 0 <= j <= |skills|
      invariant names == AddSkillTools(acc, skills[..j])
    {
      assert skills[..j + 1] == skills[..j] + [skills[j]];
      AddSkillToolsSnoc(acc, skills[..j], skills[j]);
      names := AddAll(names, skills[j].toolNames);
      j := j + 1;
    }
    assert skills[..j] == skills;
  }

  class AgentFactory {
    const toolRegistry: ToolRegistry
    const skillRegistry: SkillRegistry
    const agentTypeRegistry: AgentTypeRegistry

    constructor (toolRegistry: ToolRegistry, skillRegistry: SkillRegistry, agentTypeRegistry: AgentTypeRegistry)
      ensures this.toolRegistry == toolRegistry && this.skillRegistry == skillRegistry
      ensures this.agentTypeRegistry == agentTypeRegistry
    {
      this.toolRegistry := toolRegistry;
      this.skillRegistry := skillRegistry;
      this.agentTypeRegistry := agentTypeRegistry;
    }

    /** `buildAdditionalContext`. */
    method BuildAdditionalContext(skillNames: seq<string>, hasSubAgentTool: bool) returns (r: string)
      requires agentTypeRegistry.Valid()
      ensures r == AdditionalContext(Catalog(skillRegistry.skills, skillNames), hasSubAgentTool,
        CATALOG_OPEN + TypeLines(agentTypeRegistry.order, agentTypeRegistry.types) + CATALOG_CLOSE)
    {
      var skillCatalog := skillRegistry.GetSkillCatalog(skillNames);
      var sb := "";
      if !IsBlank(skillCatalog) {
        sb := sb + skillCatalog;
      }
      assert sb == if IsBlank(skillCatalog) then "" else skillCatalog;
      if hasSubAgentTool {
        if sb != "" {
          sb := sb + "\n\n";
        }
        var typeCatalog := agentTypeRegistry.GetTypeCatalog();
        sb := sb + typeCatalog;
      }
      r := sb;
    }

    /** `collectTools`. */
    method CollectTools(d: AgentDefinition, skillNames: seq<string>, extraTools: seq<Bean>) returns (tools: seq<Bean>)
      ensures tools == CollectedTools(d.toolNames, skillRegistry.GetSkills(skillNames), toolRegistry.toolBeans, extraTools)
    {
      var skills := skillRegistry.GetSkills(skillNames);
      var names := RequestedToolNames(d.toolNames, skills);
      tools := toolRegistry.GetToolBeans(names);
      tools := AppendSelfToolBeans(tools, skills);
      tools := tools + extraTools;
    }
  }

  /** The skills' own tool beans added after the registry's. */
  method AppendSelfToolBeans(acc: seq<Bean>, skills: seq<SkillDescriptor>) returns (tools: seq<Bean>)
    ensures tools == acc + SelfToolBeans(skills)
  {
    tools := acc;
    var k := 0;
    while k < |skills|
      invariant 0 <= k <= |skills|
      invariant tools == acc + SelfToolBeans(skills[..k])
    {
      assert skills[..k + 1][..k] == skills[..k];
      if skills[k].selfToolBean.Some? {
        tools := tools + [skills[k].selfToolBean.value];
      }
      k := k + 1;
    }
    assert skills[..k] == skills;
  }
}
