/** The registry of sub-agent archetypes: nine fixed registrations made at
    start-up, lookup by name, and the type catalog injected into the Lead
    Agent's system prompt. */
module AgentTypes {
  import opened Wrappers
  import opened Strs
  import opened Resources

  datatype AgentTypeDescriptor = AgentTypeDescriptor(
    name: string,
    description: string,
    promptContent: string,
    defaultTools: seq<string>,
    defaultSkills: seq<string>)

  /** The arguments of one `register` call. */
  datatype Registration = Registration(
    name: string,
    description: string,
    promptRef: Option<string>,
    defaultTools: seq<string>,
    defaultSkills: seq<string>)

  const LEAD_DESIGNER: string := "leadDesigner"
  const DEFAULT_TYPE: string := "default"

  /** The registrations `init` makes, in order. */
  const REGISTRATIONS: seq<Registration> := [
    Registration("leadDesigner", "Lead Designer (主策划) — creative director and team coordinator",
      Some("agents/lead-designer.txt"), [], []),
    Registration("systemDesigner", "Systems Designer (系统策划) — gameplay loops, progression, economy",
      Some("agents/system-designer.txt"), [], []),
    Registration("balancingDesigner", "Combat/Balancing Designer (数值策划) — formulas, curves, probability",
      Some("agents/balancing-designer.txt"), [], []),
    Registration("levelDesigner", "Level Designer (关卡策划) — level layout, encounter pacing, world structure",
      Some("agents/level-designer.txt"), [], []),
    Registration("narrativeDesigner", "Narrative Designer (剧情/文案策划) — story, characters, world-building",
      Some("agents/narrative-designer.txt"), [], []),
    Registration("combatDesigner", "Combat Designer (战斗策划) — combat systems, skills, enemy AI",
      Some("agents/combat-designer.txt"), [], []),
    Registration("technicalDesigner", "Technical Designer (技术策划) — feasibility, architecture, performance",
      Some("agents/technical-designer.txt"), [], []),
    Registration("juniorDesigner", "Junior/Associate Designer (执行策划) — documentation, data entry, research",
      Some("agents/junior-designer.txt"), [], []),
    Registration("default", "Default agent — blank agent with no preset prompt",
      None, [], [])
  ]

  const TYPE_NAMES: seq<string> := [
    "leadDesigner", "systemDesigner", "balancingDesigner", "levelDesigner", "narrativeDesigner",
    "combatDesigner", "technicalDesigner", "juniorDesigner", "default"
  ]

  function Names(rs: seq<Registration>): (r: seq<string>)
    ensures |r| == |rs| && forall i :: 0 <= i < |rs| ==> r[i] == rs[i].name
  {
    seq(|rs|, i requires 0 <= i < |rs| => rs[i].name)
  }


  /** The descriptor `register` stores: the prompt file's text, or the empty
      text when there is no reference or the file cannot be read. */
  function DescriptorOf(r: Registration, files: Files): (d: AgentTypeDescriptor)
    ensures d.name == r.name && d.description == r.description
    ensures d.defaultTools == r.defaultTools && d.defaultSkills == r.defaultSkills
    ensures r.promptRef.None? ==> d.promptContent == ""
    ensures r.promptRef.Some? && r.promptRef.value !in files ==> d.promptContent == ""
  {
    AgentTypeDescriptor(r.name, r.description,
      if r.promptRef.Some? then LoadOrEmpty(files, r.promptRef.value) else "",
      r.defaultTools, r.defaultSkills)
  }

  /** The insertion-ordered map of types. */
  datatype TypeTable = TypeTable(order: seq<string>, types: map<string, AgentTypeDescriptor>)

  const EMPTY: TypeTable := TypeTable([], map[])

  ghost predicate WellFormed(t: TypeTable) {
    && (forall n :: n in t.types <==> n in t.order)
    && (forall n :: n in t.types ==> t.types[n].name == n)
    && Distinct(t.order)
  }

  /** `LinkedHashMap.put`: a new key goes last, an existing key keeps its
      place and gets the new value. */
  function Put(t: TypeTable, d: AgentTypeDescriptor): (r: TypeTable)
    ensures d.name in r.types && r.types[d.name] == d
    ensures forall n :: n != d.name && n in t.types ==> n in r.types && r.types[n] == t.types[n]
  {
    TypeTable(if d.name in t.types then t.order else t.order + [d.name], t.types[d.name := d])
  }

  lemma PutKeepsWellFormed(t: TypeTable, d: AgentTypeDescriptor)
    requires WellFormed(t)
    ensures WellFormed(Put(t, d))
  {
  }

  /** The table after registering `rs` in order. */
  function RegisterAll(t: TypeTable, rs: seq<Registration>, files: Files): TypeTable {
    if |rs| == 0 then t else Put(RegisterAll(t, rs[..|rs| - 1], files), DescriptorOf(rs[|rs| - 1], files))
  }

  lemma RegisterAllStep(t: TypeTable, rs: seq<Registration>, k: int, files: Files)
    requires 0 <= k < |rs|
    ensures RegisterAll(t, rs[..k + 1], files) == Put(RegisterAll(t, rs[..k], files), DescriptorOf(rs[k], files))
  {
    assert rs[..k + 1][..k] == rs[..k];
  }

  /** The names of all but the last registration, and the last one's. */
  lemma NamesOfInit(rs: seq<Registration>)
    requires |rs| > 0
    ensures Names(rs[..|rs| - 1]) == Names(rs)[..|rs| - 1]
    ensures Names(rs) == Names(rs[..|rs| - 1]) + [rs[|rs| - 1].name]
  {
  }

  /** Registering distinct names into an empty table lists them in
      registration order, each with its own descriptor. */
  lemma {:induction false} RegisterAllDistinct(rs: seq<Registration>, files: Files)
    requires Distinct(Names(rs))
    ensures WellFormed(RegisterAll(EMPTY, rs, files))
    ensures RegisterAll(EMPTY, rs, files).order == Names(rs)
    ensures forall i :: 0 <= i < |rs| ==> RegisterAll(EMPTY, rs, files).types[rs[i].name] == DescriptorOf(rs[i], files)
  {
    if |rs| > 0 {
      var init := rs[..|rs| - 1];
      var last := rs[|rs| - 1];
      NamesOfInit(rs);
      RegisterAllDistinct(init, files);
      var before := RegisterAll(EMPTY, init, files);
      assert last.name !in Names(init) by {
        assert Names(rs)[|rs| - 1] == last.name;
      }
      assert last.name !in before.types;
      PutKeepsWellFormed(before, DescriptorOf(last, files));
      forall i | 0 <= i < |rs| - 1
        ensures RegisterAll(EMPTY, rs, files).types[rs[i].name] == DescriptorOf(rs[i], files)
      {
        assert rs[i] == init[i];
        assert Names(rs)[i] != Names(rs)[|rs| - 1];
      }
    }
  }

  lemma TypeNamesDistinct()
    ensures Distinct(TYPE_NAMES)
  {
  }

  lemma RegisteredNames()
    ensures Names(REGISTRATIONS) == TYPE_NAMES
  {
  }

  lemma RegistrationsWithoutDefaults()
    ensures forall i :: 0 <= i < |REGISTRATIONS| ==> REGISTRATIONS[i].defaultTools == [] && REGISTRATIONS[i].defaultSkills == []
    ensures REGISTRATIONS[8].promptRef.None?
  {
  }

  /** After start-up exactly the nine archetypes are registered, in the
      listed order; none has default tools or skills, and `default` has no
      prompt. */
  lemma InitRegistersNine(files: Files)
    ensures var t := RegisterAll(EMPTY, REGISTRATIONS, files);
      && WellFormed(t)
      && t.order == TYPE_NAMES
      && LEAD_DESIGNER in t.types && DEFAULT_TYPE in t.types
      && (forall n :: n in t.types ==> t.types[n].defaultTools == [] && t.types[n].defaultSkills == [])
      && t.types[DEFAULT_TYPE].promptContent == ""
  {
    var rs := REGISTRATIONS;
    RegisteredNames();
    TypeNamesDistinct();
    RegistrationsWithoutDefaults();
    RegisterAllDistinct(rs, files);
    var t := RegisterAll(EMPTY, rs, files);
    assert Names(rs)[0] == LEAD_DESIGNER;
    assert Names(rs)[8] == DEFAULT_TYPE;
    forall n | n in t.types
      ensures t.types[n].defaultTools == [] && t.types[n].defaultSkills == []
    {
      var i :| 0 <= i < |rs| && Names(rs)[i] == n;
      assert t.types[rs[i].name] == DescriptorOf(rs[i], files);
    }
  }

  // ---------------------------------------------------------------------------
  // The type catalog
  // ---------------------------------------------------------------------------

  const CATALOG_OPEN: string := "<available-agent-types>\nYou can create sub-agents of the following types using the createSubAgent tool:\n\n"
  const CATALOG_CLOSE: string := "</available-agent-types>"

  function CatalogLine(d: AgentTypeDescriptor): string {
    "- **" + d.name + "**: " + d.description + "\n"
  }

  /** One line per type in table order, the Lead Designer left out. */
  function TypeLines(order: seq<string>, types: map<string, AgentTypeDescriptor>): string
    requires forall n :: n in order ==> n in types
  {
    if |order| == 0 then ""
    else
      var last := order[|order| - 1];
      TypeLines(order[..|order| - 1], types) + (if last == LEAD_DESIGNER then "" else CatalogLine(types[last]))
  }

  /** Every registered type other than the Lead Designer has its line in the
      catalog. */
  lemma {:induction false} TypeLinesList(order: seq<string>, types: map<string, AgentTypeDescriptor>, i: int)
    returns (pre: string, post: string)
    requires forall n :: n in order ==> n in types
    requires 0 <= i < |order| && order[i] != LEAD_DESIGNER
    ensures TypeLines(order, types) == pre + CatalogLine(types[order[i]]) + post
  {
    var last := order[|order| - 1];
    var extra := if last == LEAD_DESIGNER then "" else CatalogLine(types[last]);
    assert TypeLines(order, types) == TypeLines(order[..|order| - 1], types) + extra;
    if i == |order| - 1 {
      pre, post := TypeLines(order[..|order| - 1], types), "";
    } else {
      assert order[..|order| - 1][i] == order[i];
      var pre0, post0 := TypeLinesList(order[..|order| - 1], types, i);
      AppendAssoc(pre0 + CatalogLine(types[order[i]]), post0, extra);
      pre, post := pre0, post0 + extra;
    }
  }

  class AgentTypeRegistry {
    const files: Files
    var order: seq<string>
    var types: map<string, AgentTypeDescriptor>

    function Table(): TypeTable
      reads this
    {
      TypeTable(order, types)
    }

    ghost predicate Valid()
      reads this
    {
      WellFormed(Table())
    }

    constructor (files: Files)
      ensures this.files == files && Table() == EMPTY && Valid()
    {
      this.files := files;
      order := [];
      types := map[];
    }

    /** `register`: loads the prompt (or takes the empty text) and puts the
        descriptor under its name. */
    method Register(r: Registration)
      requires Valid()
      modifies this
      ensures Valid()
      ensures Table() == Put(old(Table()), DescriptorOf(r, files))
    {
      PutKeepsWellFormed(Table(), DescriptorOf(r, files));
      var promptContent := if r.promptRef.Some? then LoadOrEmpty(files, r.promptRef.value) else "";
      var d := AgentTypeDescriptor(r.name, r.description, promptContent, r.defaultTools, r.defaultSkills);
      if d.name !in types {
        order := order + [d.name];
      }
      types := types[d.name := d];
    }

    /** `init`: the nine `register` calls, in the order of the list. */
    method Init()
      requires Valid()
      modifies this
      ensures Valid()
      ensures Table() == RegisterAll(old(Table()), REGISTRATIONS, files)
    {
      ghost var t0 := Table();
      var k := 0;
      while k < |REGISTRATIONS|
        invariant 0 <= k <= |REGISTRATIONS|
        invariant Valid()
        invariant Table() == RegisterAll(t0, REGISTRATIONS[..k], files)
      {
        Register(REGISTRATIONS[k]);
        RegisterAllStep(t0, REGISTRATIONS, k, files);
        k := k + 1;
      }
      assert REGISTRATIONS[..k] == REGISTRATIONS;
    }

    /** `getType`: the descriptor registered under the name, null for any
        other name. */
    function GetType(name: string): (r: Option<AgentTypeDescriptor>)
      reads this
      ensures r.Some? <==> name in types
      ensures r.Some? ==> r.value == types[name] && r.value in types.Values
    {
      if name in types then Some(types[name]) else None
    }

    /** `getRegisteredTypeNames`: the names in registration order. */
    function GetRegisteredTypeNames(): (r: seq<string>)
      reads this
      requires Valid()
      ensures forall n :: n in r <==> n in types
      ensures Distinct(r)
    {
      order
    }

    /** `getTypeCatalog`: the wrapper tags around one line per type other
        than the Lead Designer, in registration order. */
    method GetTypeCatalog() returns (r: string)
      requires Valid()
      ensures r == CATALOG_OPEN + TypeLines(order, types) + CATALOG_CLOSE
    {
      var lines := "";
      var i := 0;
      while i < |order|
        invariant 0 <= i <= |order|
        invariant forall n :: n in order[..i] ==> n in types
        invariant lines == TypeLines(order[..i], types)
      {
        var d := types[order[i]];
        assert order[..i + 1][..i] == order[..i];
        if d.name != LEAD_DESIGNER {
          lines := lines + CatalogLine(d);
        }
        i := i + 1;
      }
      assert order[..i] == order;
      r := CATALOG_OPEN + lines + CATALOG_CLOSE;
    }
  }

  /** The catalog of a registry lists every type except the Lead Designer. */
  lemma CatalogListsType(t: TypeTable, n: string)
    requires WellFormed(t) && n in t.types && n != LEAD_DESIGNER
    ensures Contains(CATALOG_OPEN + TypeLines(t.order, t.types) + CATALOG_CLOSE, CatalogLine(t.types[n]))
  {
    var i :| 0 <= i < |t.order| && t.order[i] == n;
    var pre, post := TypeLinesList(t.order, t.types, i);
    ContainsInMiddle(CATALOG_OPEN, TypeLines(t.order, t.types), CATALOG_CLOSE, pre, CatalogLine(t.types[n]), post);
  }
}
