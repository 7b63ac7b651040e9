/** The registry of skills: one descriptor per `@Skill` bean, by name, and
    the catalog and lookups the agent factory and the skill loader use. */
module Skills {
  import opened Wrappers
  import opened Strs
  import opened Resources
  import opened Tools

  /** The attributes of a `@Skill` annotation; an unset attribute is empty. */
  datatype SkillAnnotation = SkillAnnotation(
    name: string,
    description: string,
    content: string,
    contentRef: string,
    toolNames: seq<string>)

  /** A bean carrying `@Skill`, as the application context reports it. The
      annotation may be missing on the bean's own class. */
  datatype SkillBean = SkillBean(beanName: string, annotation: Option<SkillAnnotation>, hasToolMethod: bool)

  datatype SkillDescriptor = SkillDescriptor(
    name: string,
    description: string,
    fullContent: string,
    toolNames: seq<string>,
    selfToolBean: Option<Bean>)

  /** `resolveContent`: inline content wins over a content reference; with
      neither the content is empty. */
  function ResolveContent(a: SkillAnnotation, files: Files): (r: string)
    ensures a.content != "" ==> r == a.content
    ensures a.content == "" && a.contentRef != "" ==> r == LoadOrEmpty(files, a.contentRef)
    ensures a.content == "" && a.contentRef == "" ==> r == ""
  {
    if a.content != "" then a.content
    else if a.contentRef != "" then LoadOrEmpty(files, a.contentRef)
    else ""
  }

  /** The registration name: the annotation's name, or the bean name when
      that is empty. */
  function SkillName(b: SkillBean): string
    requires b.annotation.Some?
  {
    if b.annotation.value.name == "" then b.beanName else b.annotation.value.name
  }

  function DescriptorOf(b: SkillBean, files: Files): (d: SkillDescriptor)
    requires b.annotation.Some?
    ensures d.name == SkillName(b)
    ensures d.selfToolBean.Some? <==> b.hasToolMethod
  {
    var a := b.annotation.value;
    SkillDescriptor(SkillName(b), a.description, ResolveContent(a, files), a.toolNames,
      if b.hasToolMethod then Some(Bean(b.beanName)) else None)
  }

  /** The skills after registering `beans` in order; beans without the
      annotation are skipped. */
  function WithSkills(skills: map<string, SkillDescriptor>, beans: seq<SkillBean>, files: Files): map<string, SkillDescriptor> {
    if |beans| == 0 then skills
    else
      var last := beans[|beans| - 1];
      var before := WithSkills(skills, beans[..|beans| - 1], files);
      if last.annotation.None? then before else before[SkillName(last) := DescriptorOf(last, files)]
  }

  /** An annotated bean is found under its registration name unless a later
      bean registers the same name. */
  lemma {:induction false} RegisteredUnderName(skills: map<string, SkillDescriptor>, beans: seq<SkillBean>, files: Files, i: int)
    requires 0 <= i < |beans| && beans[i].annotation.Some?
    requires forall j :: i < j < |beans| && beans[j].annotation.Some? ==> SkillName(beans[j]) != SkillName(beans[i])
    ensures SkillName(beans[i]) in WithSkills(skills, beans, files)
    ensures WithSkills(skills, beans, files)[SkillName(beans[i])] == DescriptorOf(beans[i], files)
  {
    if i < |beans| - 1 {
      var init := beans[..|beans| - 1];
      assert init[i] == beans[i];
      forall j | i < j < |init| && init[j].annotation.Some?
        ensures SkillName(init[j]) != SkillName(init[i])
      {
        assert init[j] == beans[j];
      }
      RegisteredUnderName(skills, init, files, i);
    }
  }

  /** `getSkills`: the descriptors of the registered names, in input order,
      unknown names dropped. */
  function Matched(skills: map<string, SkillDescriptor>, names: seq<string>): (r: seq<SkillDescriptor>)
    ensures |r| <= |names|
    ensures forall d :: d in r ==> d in skills.Values
  {
    if |names| == 0 then []
    else
      var last := names[|names| - 1];
      Matched(skills, names[..|names| - 1]) + (if last in skills then [skills[last]] else [])
  }

  lemma MatchedAppend(skills: map<string, SkillDescriptor>, names: seq<string>, n: string)
    ensures Matched(skills, names + [n]) == Matched(skills, names) + (if n in skills then [skills[n]] else [])
  {
    assert (names + [n])[..|names|] == names;
  }

  /** Nothing matches exactly when no name is registered. */
  lemma {:induction false} MatchedEmpty(skills: map<string, SkillDescriptor>, names: seq<string>)
    ensures Matched(skills, names) == [] <==> forall k :: 0 <= k < |names| ==> names[k] !in skills
  {
    if |names| > 0 {
      MatchedEmpty(skills, names[..|names| - 1]);
      assert forall k :: 0 <= k < |names| - 1 ==> names[..|names| - 1][k] == names[k];
    }
  }

  const CATALOG_TITLE: string := "## 可用技能\n"
  const CATALOG_HEADER: string := CATALOG_TITLE + "当你需要以下某个领域的专业知识时，请调用 loadSkill 工具加载对应技能的完整指南。\n\n"

  function SkillLine(d: SkillDescriptor): string {
    "- **" + d.name + "**: " + d.description + "\n"
  }

  function SkillLines(ds: seq<SkillDescriptor>): string {
    if |ds| == 0 then "" else SkillLines(ds[..|ds| - 1]) + SkillLine(ds[|ds| - 1])
  }

  /** The catalog text: empty when nothing matches, otherwise the header and
      one line per matched skill. */
  function Catalog(skills: map<string, SkillDescriptor>, names: seq<string>): string {
    var matched := Matched(skills, names);
    if |matched| == 0 then "" else CATALOG_HEADER + SkillLines(matched)
  }

  /** The catalog is empty exactly when none of the names is registered. */
  lemma CatalogEmptyIffNoneRegistered(skills: map<string, SkillDescriptor>, names: seq<string>)
    ensures Catalog(skills, names) == "" <==> forall k :: 0 <= k < |names| ==> names[k] !in skills
  {
    MatchedEmpty(skills, names);
    var matched := Matched(skills, names);
    if |matched| > 0 {
      assert |CATALOG_HEADER + SkillLines(matched)| >= |CATALOG_HEADER| > 0;
    }
  }

  /** A catalog that is not empty starts with the visible header. */
  lemma CatalogVisible(skills: map<string, SkillDescriptor>, names: seq<string>)
    ensures Catalog(skills, names) != "" ==> !IsBlank(Catalog(skills, names))
  {
    var matched := Matched(skills, names);
    if |matched| > 0 {
      var c := CATALOG_HEADER + SkillLines(matched);
      assert c[0] == CATALOG_TITLE[0] == '#';
      NotBlank(c, 0);
    }
  }

  /** An unknown name adds no line to the catalog. */
  lemma CatalogSkipsUnknown(skills: map<string, SkillDescriptor>, names: seq<string>, n: string)
    requires n !in skills
    ensures Catalog(skills, names + [n]) == Catalog(skills, names)
  {
    MatchedAppend(skills, names, n);
    assert Matched(skills, names + [n]) == Matched(skills, names);
  }

  class SkillRegistry {
    const files: Files
    var skills: map<string, SkillDescriptor>

    constructor (files: Files)
      ensures this.files == files && skills == map[]
    {
      this.files := files;
      skills := map[];
    }

    /** `afterSingletonsInstantiated`: registers each annotated bean. */
    method AfterSingletonsInstantiated(beans: seq<SkillBean>)
      modifies this
      ensures skills == WithSkills(old(skills), beans, files)
    {
      var i := 0;
      while i < |beans|
        invariant 0 <= i <= |beans|
        invariant skills == WithSkills(old(skills), beans[..i], files)
      {
        assert beans[..i + 1][..i] == beans[..i];
        var bean := beans[i];
        if bean.annotation.Some? {
          var a := bean.annotation.value;
          var name := if a.name == "" then bean.beanName else a.name;
          var fullContent := ResolveContent(a, files);
          var selfToolBean := if bean.hasToolMethod then Some(Bean(bean.beanName)) else None;
          skills := skills[name := SkillDescriptor(name, a.description, fullContent, a.toolNames, selfToolBean)];
        }
        i := i + 1;
      }
      assert beans[..i] == beans;
    }

    /** `getSkillCatalog`. */
    method GetSkillCatalog(names: seq<string>) returns (r: string)
      ensures r == Catalog(skills, names)
    {
      if |names| == 0 {
        return "";
      }
      var matched := Matched(skills, names);
      if |matched| == 0 {
        return "";
      }
      var sb := CATALOG_HEADER;
      var i := 0;
      while i < |matched|
        invariant 0 <= i <= |matched|
        invariant sb == CATALOG_HEADER + SkillLines(matched[..i])
      {
        assert matched[..i + 1][..i] == matched[..i];
        sb := sb + "- **" + matched[i].name + "**: " + matched[i].description + "\n";
        i := i + 1;
      }
      assert matched[..i] == matched;
      r := sb;
    }

    /** `getSkillContent`: null for an unknown name. */
    function GetSkillContent(name: string): (r: Option<string>)
      reads this
      ensures r.None? <==> name !in skills
      ensures r.Some? ==> r.value == skills[name].fullContent
    {
      if name in skills then Some(skills[name].fullContent) else None
    }

    /** `getSkills`: null or empty input gives the empty list. */
    function GetSkills(names: seq<string>): (r: seq<SkillDescriptor>)
      reads this
      ensures |names| == 0 ==> r == []
      ensures r == Matched(skills, names)
    {
      if |names| == 0 then [] else Matched(skills, names)
    }
  }
}
