/** The registry of tool beans: every application bean with a `@Tool` method,
    by bean name, and the lookups the agent factory uses. */
module Tools {
  import opened Wrappers
  import opened Strs

  /** An application bean, identified by its bean name. */
  datatype Bean = Bean(beanName: string)

  /** What `init` sees of each bean definition: its name and whether its class
      declares a `@Tool` method. */
  datatype BeanDefinition = BeanDefinition(name: string, hasToolMethod: bool)

  /** The tool beans after registering `defs` in order on top of `beans`. */
  function WithTools(beans: map<string, Bean>, defs: seq<BeanDefinition>): (r: map<string, Bean>)
    ensures forall n :: n in r <==> n in beans || exists i :: 0 <= i < |defs| && defs[i].name == n && defs[i].hasToolMethod
  {
    if |defs| == 0 then beans
    else
      var last := defs[|defs| - 1];
      var before := WithTools(beans, defs[..|defs| - 1]);
      assert forall i :: 0 <= i < |defs| - 1 ==> defs[..|defs| - 1][i] == defs[i];
      if last.hasToolMethod then before[last.name := Bean(last.name)] else before
  }

  /** `getToolBeans`: the registered bean of each trimmed name, in input
      order, unknown names dropped and repeats kept. */
  function Lookups(toolBeans: map<string, Bean>, names: seq<string>): (r: seq<Bean>)
    ensures |r| <= |names|
    ensures forall b :: b in r ==> b in toolBeans.Values
  {
    if |names| == 0 then []
    else
      var last := Trim(names[|names| - 1]);
      Lookups(toolBeans, names[..|names| - 1]) + (if last in toolBeans then [toolBeans[last]] else [])
  }

  /** Looking up one more name appends at most that name's bean. */
  lemma LookupsAppend(toolBeans: map<string, Bean>, names: seq<string>, n: string)
    ensures Lookups(toolBeans, names + [n])
      == Lookups(toolBeans, names) + (if Trim(n) in toolBeans then [toolBeans[Trim(n)]] else [])
  {
    assert (names + [n])[..|names|] == names;
  }

  /** Looking up two lists in turn is looking up their concatenation: the
      beans keep the order of the names. */
  lemma {:induction false} LookupsConcat(toolBeans: map<string, Bean>, a: seq<string>, b: seq<string>)
    ensures Lookups(toolBeans, a + b) == Lookups(toolBeans, a) + Lookups(toolBeans, b)
    decreases |b|
  {
    if |b| == 0 {
      assert a + b == a;
    } else {
      var init := b[..|b| - 1];
      var n := b[|b| - 1];
      assert b == init + [n];
      assert a + b == (a + init) + [n];
      LookupsAppend(toolBeans, a + init, n);
      LookupsAppend(toolBeans, init, n);
      LookupsConcat(toolBeans, a, init);
    }
  }

  /** When every name is registered after trimming, nothing is dropped: the
      k-th bean is the k-th name's. */
  lemma {:induction false} LookupsAllRegistered(toolBeans: map<string, Bean>, names: seq<string>)
    requires forall k :: 0 <= k < |names| ==> Trim(names[k]) in toolBeans
    ensures |Lookups(toolBeans, names)| == |names|
    ensures forall k :: 0 <= k < |names| ==> Lookups(toolBeans, names)[k] == toolBeans[Trim(names[k])]
  {
    if |names| > 0 {
      var init := names[..|names| - 1];
      forall k | 0 <= k < |init|
        ensures Trim(init[k]) in toolBeans
      {
        assert init[k] == names[k];
      }
      LookupsAllRegistered(toolBeans, init);
      var last := Trim(names[|names| - 1]);
      var r := Lookups(toolBeans, names);
      assert r == Lookups(toolBeans, init) + [toolBeans[last]];
      forall k | 0 <= k < |names|
        ensures r[k] == toolBeans[Trim(names[k])]
      {
        if k < |init| {
          assert init[k] == names[k];
        }
      }
    }
  }

  /** Names none of which is registered yield no beans. */
  lemma {:induction false} LookupsNoneRegistered(toolBeans: map<string, Bean>, names: seq<string>)
    requires forall k :: 0 <= k < |names| ==> Trim(names[k]) !in toolBeans
    ensures Lookups(toolBeans, names) == []
  {
    if |names| > 0 {
      LookupsNoneRegistered(toolBeans, names[..|names| - 1]);
    }
  }

  class ToolRegistry {
    var toolBeans: map<string, Bean>

    constructor ()
      ensures toolBeans == map[]
    {
      toolBeans := map[];
    }

    /** `init`: registers every bean whose class has a `@Tool` method. */
    method Init(defs: seq<BeanDefinition>)
      modifies this
      ensures toolBeans == WithTools(old(toolBeans), defs)
    {
      var i := 0;
      while i < |defs|
        invariant 0 <= i <= |defs|
        invariant toolBeans == WithTools(old(toolBeans), defs[..i])
      {
        assert defs[..i + 1][..i] == defs[..i];
        if defs[i].hasToolMethod {
          toolBeans := toolBeans[defs[i].name := Bean(defs[i].name)];
        }
        i := i + 1;
      }
      assert defs[..i] == defs;
    }

    /** `getToolBean`: null for a name that is not registered. */
    function GetToolBean(name: string): (r: Option<Bean>)
      reads this
      ensures r.None? <==> name !in toolBeans
      ensures r.Some? ==> r.value == toolBeans[name]
    {
      if name in toolBeans then Some(toolBeans[name]) else None
    }

    /** `getToolBeans`: null or empty input gives the empty list, any other
        input the registered beans of its trimmed names in order. */
    function GetToolBeans(names: seq<string>): (r: seq<Bean>)
      reads this
      ensures r == Lookups(toolBeans, names)
      ensures |names| == 0 ==> r == []
      ensures |r| <= |names|
      ensures forall b :: b in r ==> b in toolBeans.Values
    {
      if |names| == 0 then [] else Lookups(toolBeans, names)
    }
  }
}
