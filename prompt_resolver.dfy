/** Assembly of an agent's system prompt: the base prompt chosen from the
    definition, followed by the prompt fragments of its skills, with prompt
    files read through a per-reference cache. */
module Prompts {
  import opened Wrappers
  import opened Strs
  import opened Resources
  import opened Domain

  /** The part of a skill row the resolver reads. */
  datatype AgentSkill = AgentSkill(name: string, promptFragment: Option<string>)

  predicate NonBlank(s: Option<string>) {
    s.Some? && !IsBlank(s.value)
  }

  /** The base prompt: a non-blank inline prompt, else the file named by a
      non-blank reference, else the empty text. */
  function BasePrompt(agent: AgentDefinition, files: Files): (r: string)
    ensures NonBlank(agent.systemPrompt) ==> r == agent.systemPrompt.value
    ensures !NonBlank(agent.systemPrompt) && NonBlank(agent.systemPromptRef) ==> r == LoadOrEmpty(files, agent.systemPromptRef.value)
    ensures !NonBlank(agent.systemPrompt) && !NonBlank(agent.systemPromptRef) ==> r == ""
  {
    if NonBlank(agent.systemPrompt) then agent.systemPrompt.value
    else if NonBlank(agent.systemPromptRef) then LoadOrEmpty(files, agent.systemPromptRef.value)
    else ""
  }

  /** `"\n\n" + fragment` for each skill with a non-blank fragment, in order. */
  function Fragments(skills: seq<AgentSkill>): string {
    if |skills| == 0 then ""
    else
      var last := skills[|skills| - 1];
      Fragments(skills[..|skills| - 1]) + (if NonBlank(last.promptFragment) then "\n\n" + last.promptFragment.value else "")
  }

  /** Skills without a usable fragment leave the prompt as it is. */
  lemma {:induction false} FragmentsOfBlank(skills: seq<AgentSkill>)
    requires forall k :: 0 <= k < |skills| ==> !NonBlank(skills[k].promptFragment)
    ensures Fragments(skills) == ""
  {
    if |skills| > 0 {
      FragmentsOfBlank(skills[..|skills| - 1]);
    }
  }

  /** A fragment that is used appears, after its separator, in the result. */
  lemma {:induction false} FragmentIncluded(skills: seq<AgentSkill>, i: int) returns (pre: string, post: string)
    requires 0 <= i < |skills| && NonBlank(skills[i].promptFragment)
    ensures Fragments(skills) == pre + "\n\n" + skills[i].promptFragment.value + post
  {
    var last := skills[|skills| - 1];
    var extra := if NonBlank(last.promptFragment) then "\n\n" + last.promptFragment.value else "";
    if i == |skills| - 1 {
      pre, post := Fragments(skills[..|skills| - 1]), "";
    } else {
      assert skills[..|skills| - 1][i] == skills[i];
      pre, post := FragmentIncluded(skills[..|skills| - 1], i);
      post := post + extra;
    }
  }

  class SystemPromptResolver {
    const files: Files
    var promptCache: map<string, string>
    /** The references actually read from the classpath, in order. */
    ghost var loads: seq<string>

    ghost predicate Valid()
      reads this
    {
      && (forall ref :: ref in promptCache ==> promptCache[ref] == LoadOrEmpty(files, ref))
      && (forall ref :: ref in promptCache <==> ref in loads)
      && (forall i, j :: 0 <= i < j < |loads| ==> loads[i] != loads[j])
    }

    constructor (files: Files)
      ensures this.files == files && Valid() && promptCache == map[] && loads == []
    {
      this.files := files;
      promptCache := map[];
      loads := [];
    }

    /** `loadPromptFromFile`: reads a reference at most once and caches the
        text, the empty text for a file that cannot be read. */
    method LoadPromptFromFile(ref: string) returns (r: string)
      requires Valid()
      modifies this
      ensures Valid()
      ensures r == LoadOrEmpty(files, ref)
      ensures promptCache == old(promptCache)[ref := r]
      ensures loads == if ref in old(promptCache) then old(loads) else old(loads) + [ref]
    {
      if ref in promptCache {
        r := promptCache[ref];
      } else {
        r := if ref in files then files[ref] else "";
        promptCache := promptCache[ref := r];
        loads := loads + [ref];
      }
    }

    /** `resolve`: the base prompt followed by the skills' fragments. */
    method Resolve(agent: AgentDefinition, skills: seq<AgentSkill>) returns (r: string)
      requires Valid()
      modifies this
      ensures Valid()
      ensures r == BasePrompt(agent, files) + Fragments(skills)
      ensures forall ref :: ref in old(promptCache) ==> ref in promptCache
    {
      var basePrompt: string;
      if NonBlank(agent.systemPrompt) {
        basePrompt := agent.systemPrompt.value;
      } else if NonBlank(agent.systemPromptRef) {
        basePrompt := LoadPromptFromFile(agent.systemPromptRef.value);
      } else {
        basePrompt := "";
      }
      if |skills| > 0 {
        r := AppendFragments(basePrompt, skills);
        return;
      }
      return basePrompt;
    }

    /** The fragment loop of `resolve`: each non-blank fragment appended
        after a blank line. */
    static method AppendFragments(basePrompt: string, skills: seq<AgentSkill>) returns (sb: string)
      ensures sb == basePrompt + Fragments(skills)
    {
      sb := basePrompt;
      var i := 0;
      while i < |skills|
        invariant 0 <= i <= |skills|
        invariant sb == basePrompt + Fragments(skills[..i])
      {
        assert skills[..i + 1][..i] == skills[..i];
        var fragment := skills[i].promptFragment;
        if fragment.Some? && !IsBlank(fragment.value) {
          AppendAssoc(sb, "\n\n", fragment.value);
          AppendAssoc(basePrompt, Fragments(skills[..i]), "\n\n" + fragment.value);
          sb := sb + "\n\n" + fragment.value;
        }
        i := i + 1;
      }
      assert skills[..i] == skills;
    }

    /** The agent factory passes its additional context where the resolver
        takes the skill list; the context is treated as the one fragment. */
    method ResolveWithContext(agent: AgentDefinition, context: string) returns (r: string)
      requires Valid()
      modifies this
      ensures Valid()
      ensures r == BasePrompt(agent, files) + (if IsBlank(context) then "" else "\n\n" + context)
    {
      r := Resolve(agent, [AgentSkill("context", Some(context))]);
      assert [AgentSkill("context", Some(context))][..0] == [];
    }
  }
}
