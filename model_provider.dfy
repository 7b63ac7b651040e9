/** The model vendors an agent can run on, and the case-insensitive parse of
    a vendor string that both agent creation and agent assembly perform. */
module Providers {
  import opened Wrappers
  import opened Strs

  datatype ModelProvider = OPENAI | ANTHROPIC | GEMINI {
    /** The constant's name, the spelling `Enum.valueOf` accepts. */
    function Name(): string {
      match this
      case OPENAI => "OPENAI"
      case ANTHROPIC => "ANTHROPIC"
      case GEMINI => "GEMINI"
    }

    /** The identifier stored in an agent definition's `provider` column. */
    function Value(): string {
      match this
      case OPENAI => "openai"
      case ANTHROPIC => "anthropic"
      case GEMINI => "gemini"
    }
  }

  /** `ModelProvider.valueOf`: the constant with exactly that name. */
  function ValueOf(name: string): (r: Option<ModelProvider>)
    ensures forall p: ModelProvider :: r == Some(p) <==> name == p.Name()
  {
    if name == "OPENAI" then Some(OPENAI)
    else if name == "ANTHROPIC" then Some(ANTHROPIC)
    else if name == "GEMINI" then Some(GEMINI)
    else None
  }

  /** `valueOf(provider.toUpperCase())`; a null string fails like an unknown
      name does. */
  function ParseIgnoreCase(provider: Option<string>): (r: Option<ModelProvider>)
    ensures provider.None? ==> r.None?
    ensures provider.Some? ==> forall p: ModelProvider :: r == Some(p) <==> ToUpper(provider.value) == p.Name()
  {
    if provider.None? then None else ValueOf(ToUpper(provider.value))
  }

  /** The stored identifier and the constant name both parse back to the
      vendor. */
  lemma ParsesOwnSpellings(p: ModelProvider)
    ensures ParseIgnoreCase(Some(p.Value())) == Some(p)
    ensures ParseIgnoreCase(Some(p.Name())) == Some(p)
  {
    var v, n := p.Value(), p.Name();
    forall i | 0 <= i < |v|
      ensures 'a' <= v[i] <= 'z' && n[i] == UpperChar(v[i])
    {
      SpellingAt(p, i);
    }
    ToUpperOfLowerLetters(v, n);
  }

  /** The constant's name is its identifier in upper case, letter by
      letter. */
  lemma SpellingAt(p: ModelProvider, i: int)
    requires 0 <= i < |p.Value()|
    ensures |p.Name()| == |p.Value()|
    ensures 'a' <= p.Value()[i] <= 'z' && p.Name()[i] == UpperChar(p.Value()[i])
  {
  }

  /** Changing the case of ASCII letters does not change the outcome. */
  lemma CaseInsensitive(s: string)
    ensures ParseIgnoreCase(Some(ToLower(s))) == ParseIgnoreCase(Some(s))
    ensures ParseIgnoreCase(Some(ToUpper(s))) == ParseIgnoreCase(Some(s))
  {
    assert ToUpper(ToLower(s)) == ToUpper(s);
    assert ToUpper(ToUpper(s)) == ToUpper(s);
  }
}
