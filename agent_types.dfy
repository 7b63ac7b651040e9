/** The web client's sub-agent type helpers: the type read back from a
    generated agent name, and its full label, short label and colour, with
    fallbacks for types the tables do not know. */
module AgentTypeLabels {
  import opened Strs
  import SubAgents

  const DEFAULT_COLOR: string := "#64748b"

  const AGENT_TYPE_LABELS: map<string, string> := map[
    "systemDesigner" := "Systems Designer",
    "balancingDesigner" := "Balancing Designer",
    "levelDesigner" := "Level Designer",
    "narrativeDesigner" := "Narrative Designer",
    "combatDesigner" := "Combat Designer",
    "technicalDesigner" := "Technical Designer",
    "juniorDesigner" := "Junior Designer",
    "default" := "General Agent"]

  const AGENT_TYPE_SHORT_LABELS: map<string, string> := map[
    "systemDesigner" := "Systems",
    "balancingDesigner" := "Balancing",
    "levelDesigner" := "Level",
    "narrativeDesigner" := "Narrative",
    "combatDesigner" := "Combat",
    "technicalDesigner" := "Technical",
    "juniorDesigner" := "Junior",
    "default" := "General"]

  const AGENT_TYPE_COLORS: map<string, string> := map[
    "systemDesigner" := "#00d4ff",
    "balancingDesigner" := "#f59e0b",
    "levelDesigner" := "#34d399",
    "narrativeDesigner" := "#a78bfa",
    "combatDesigner" := "#ef4444",
    "technicalDesigner" := "#6366f1",
    "juniorDesigner" := "#94a3b8",
    "default" := DEFAULT_COLOR]

  /** `getAgentTypeFromName`: the text before the last `-` when that dash is
      not the first character, otherwise the whole name. */
  function TypeFromName(name: string): (r: string)
    ensures StartsWith(name, r)
    ensures name != "" ==> r != ""
    ensures r == name || (name[|r|] == '-' && '-' !in name[|r| + 1..])
  {
    var idx := LastIndexOf(name, '-');
    if idx > 0 then
      name[..idx]
    else name
  }

  /** A name generated as `<type>-<8 hex digits>` from a non-empty type
      without dashes gives its type back. */
  lemma GeneratedNameType(agentType: string, suffix: string)
    requires agentType != "" && '-' !in agentType
    requires |suffix| == 8 && AllHex(suffix)
    ensures TypeFromName(agentType + "-" + suffix) == agentType
  {
    var name := agentType + "-" + suffix;
    assert name[|agentType|] == '-';
    forall k | |agentType| < k < |name|
      ensures name[k] != '-'
    {
      assert name[k] == suffix[k - |agentType| - 1];
      assert IsHexDigit(suffix[k - |agentType| - 1]);
    }
    assert name[..|agentType|] == agentType;
  }

  /** The client and the server's team listing read the same type from a
      name, except for a name whose only dash is its first character: the
      server then reads the empty type, the client the whole name. */
  lemma AgreesWithServer(name: string)
    ensures LastIndexOf(name, '-') != 0 ==> TypeFromName(name) == SubAgents.TypeOfName(name)
    ensures LastIndexOf(name, '-') == 0 ==> TypeFromName(name) == name && SubAgents.TypeOfName(name) == ""
  {
    var idx := LastIndexOf(name, '-');
    var server := SubAgents.TypeOfName(name);
    if '-' in name {
      forall k | |server| < k < |name|
        ensures name[k] != '-'
      {
        assert name[k] == name[|server| + 1..][k - |server| - 1];
      }
      assert name[|server|] == '-';
    } else {
      forall k | 0 <= k < |name|
        ensures name[k] != '-'
      {
        assert name[k] in name;
      }
    }
  }

  /** A table lookup with the client's `table[type] || fallback`: a missing
      or empty entry gives the fallback. */
  function LookupOr(table: map<string, string>, key: string, fallback: string): (r: string)
    ensures key in table && table[key] != "" ==> r == table[key]
    ensures key !in table ==> r == fallback
  {
    if key in table && table[key] != "" then table[key] else fallback
  }

  /** `getAgentLabel`: the full label, or the type itself. */
  function AgentLabel(name: string): (r: string)
    ensures TypeFromName(name) in AGENT_TYPE_LABELS ==> r == AGENT_TYPE_LABELS[TypeFromName(name)]
    ensures TypeFromName(name) !in AGENT_TYPE_LABELS ==> r == TypeFromName(name)
    ensures name != "" ==> r != ""
  {
    LookupOr(AGENT_TYPE_LABELS, TypeFromName(name), TypeFromName(name))
  }

  /** `getAgentShortLabel`: the short label, or the type itself. */
  function AgentShortLabel(name: string): (r: string)
    ensures TypeFromName(name) in AGENT_TYPE_SHORT_LABELS ==> r == AGENT_TYPE_SHORT_LABELS[TypeFromName(name)]
    ensures TypeFromName(name) !in AGENT_TYPE_SHORT_LABELS ==> r == TypeFromName(name)
    ensures name != "" ==> r != ""
  {
    LookupOr(AGENT_TYPE_SHORT_LABELS, TypeFromName(name), TypeFromName(name))
  }

  /** `getAgentColor`: the type's colour, or the default slate. */
  function AgentColor(name: string): (r: string)
    ensures TypeFromName(name) in AGENT_TYPE_COLORS ==> r == AGENT_TYPE_COLORS[TypeFromName(name)]
    ensures TypeFromName(name) !in AGENT_TYPE_COLORS ==> r == DEFAULT_COLOR
    ensures r in AGENT_TYPE_COLORS.Values
  {
    assert AGENT_TYPE_COLORS["default"] == DEFAULT_COLOR;
    LookupOr(AGENT_TYPE_COLORS, TypeFromName(name), DEFAULT_COLOR)
  }
}
