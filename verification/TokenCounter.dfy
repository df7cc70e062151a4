/** count-tokens: a chain of counting methods, the first that answers wins, tiktoken last. */
module TokenCounter {
  import opened FileLimits
  import opened Values
  import opened FileCheck

  datatype Provider = Anthropic | Gemini | OpenAI | Unknown

  /** What the libraries answer for one text; None is unavailable. The encoding's name goes with a local count. */
  datatype Services = Services(
    anthropic: string -> Option<int>, gemini: string -> Option<int>, tiktoken: Option<string> -> Option<(int, string)>)

  function DetectProvider(model: string): Provider {
    if "claude-" <= model then Anthropic
    else if "gemini-" <= model then Gemini
    else if "gpt-" <= model || "o1-" <= model || "o3-" <= model || "o4-" <= model || "chatgpt-" <= model then OpenAI
    else Unknown
  }

  function CountOne(s: Services, m: string, localModel: Option<string>): Option<Measured> {
    if m == LOCAL_METHOD then
      var local := s.tiktoken(localModel);
      if local.None? then None
      else Some(Measured(local.value.0, "tiktoken local (" + local.value.1 + ")", TIKTOKEN))
    else
      match DetectProvider(m)
      case Anthropic =>
        var count := s.anthropic(m);
        if count.None? then None else Some(Measured(count.value, "anthropic API (" + m + ")", ANTHROPIC))
      case Gemini =>
        var count := s.gemini(m);
        if count.None? then None else Some(Measured(count.value, "gemini API (" + m + ")", GEMINI))
      case OpenAI =>
        var local := s.tiktoken(Some(m));
        if local.None? then None
        else Some(Measured(local.value.0, "tiktoken (" + m + " / " + local.value.1 + ")", TIKTOKEN))
      case Unknown => None
  }

  function ResolveMethods(model: string, local: bool, methods: seq<string>): seq<string> {
    if local then [LOCAL_METHOD]
    else if methods != [] then methods
    else [model, LOCAL_METHOD]
  }

  function WalkChain(s: Services, chain: seq<string>, localModel: Option<string>): Option<Measured> {
    if chain == [] then None
    else
      var first := CountOne(s, chain[0], localModel);
      if first.Some? then first else WalkChain(s, chain[1..], localModel)
  }

  /** None stands for the exit with an error. */
  function CountTokens(s: Services, model: string, local: bool, methods: seq<string>): Option<Measured> {
    var walked := WalkChain(s, ResolveMethods(model, local, methods), if local then Some(model) else None);
    if walked.Some? then walked
    else
      var fallback := s.tiktoken(None);
      if fallback.None? then None
      else Some(Measured(fallback.value.0, "tiktoken (" + fallback.value.1 + " fallback)", TIKTOKEN))
  }

  /** The counter and the checker, in separate programs, assign every method the same family. */
  lemma FamiliesAgree(s: Services, m: string, localModel: Option<string>)
    ensures CountOne(s, m, localModel).Some? ==> FamilyOf(m) == Some(CountOne(s, m, localModel).value.family)
    ensures FamilyOf(m) == None ==> CountOne(s, m, localModel) == None
  {
    assert LOCAL_METHOD[0] == 'l';
  }

  lemma {:induction false} FirstAnswerWins(s: Services, chain: seq<string>, localModel: Option<string>) returns (i: nat)
    ensures i <= |chain| && forall j | 0 <= j < i :: CountOne(s, chain[j], localModel) == None
    ensures WalkChain(s, chain, localModel) == if i < |chain| then CountOne(s, chain[i], localModel) else None
    ensures i < |chain| ==> CountOne(s, chain[i], localModel).Some?
  {
    if chain == [] || CountOne(s, chain[0], localModel).Some? {
      i := 0;
    } else {
      i := FirstAnswerWins(s, chain[1..], localModel);
      i := i + 1;
    }
  }

  /**
    A count is accepted as a provider's exactly if the first method of the chain to answer
    is a provider's: no local count or fallback can pass for one.
  */
  lemma AcceptedMeansProviderAnswered(s: Services, model: string, chain: seq<string>)
    requires chain != []
    ensures var counted := CountTokens(s, model, false, chain);
            counted.Some? && counted.value.family in ProviderFamilies(chain) <==>
              exists i | 0 <= i < |chain| ::
                && CountOne(s, chain[i], None).Some?
                && (forall j | 0 <= j < i :: CountOne(s, chain[j], None) == None)
                && FamilyOf(chain[i]).Some? && FamilyOf(chain[i]).value in PROVIDER_FAMILIES
  {
    var first := FirstAnswerWins(s, chain, None);
    if first < |chain| {
      FamiliesAgree(s, chain[first], None);
      assert forall i | 0 <= i < |chain| ::
          CountOne(s, chain[i], None).Some? && (forall j | 0 <= j < i :: CountOne(s, chain[j], None) == None) ==> i == first;
      if FamilyOf(chain[first]).value in PROVIDER_FAMILIES {
        assert chain[first] in chain;
      }
    }
  }

  /** Without named methods the model's own tokenizer is asked before the local one, which alone decides after it. */
  lemma ModelBeforeLocal(s: Services, model: string)
    ensures var own, counted := CountOne(s, model, None), CountTokens(s, model, false, []);
            && (own.Some? ==> counted == own)
            && (own.None? ==> (counted.Some? <==> s.tiktoken(None).Some?))
            && (own.None? && counted.Some? ==> counted.value.tokens == s.tiktoken(None).value.0 && counted.value.family == TIKTOKEN)
  {
    var i := FirstAnswerWins(s, [model, LOCAL_METHOD], None);
    assert [model, LOCAL_METHOD][0] == model && [model, LOCAL_METHOD][1] == LOCAL_METHOD;
  }

  /** A local count asks no provider: it is the same whatever the providers would answer and whatever is named. */
  lemma LocalAsksNoProvider(s: Services, t: Services, model: string, methods: seq<string>)
    requires s.tiktoken == t.tiktoken
    ensures CountTokens(s, model, true, methods) == CountTokens(t, model, true, [])
    ensures s.tiktoken(Some(model)).Some? ==>
      CountTokens(s, model, true, methods).Some? && CountTokens(s, model, true, methods).value.tokens == s.tiktoken(Some(model)).value.0
  {
    assert CountOne(s, LOCAL_METHOD, Some(model)) == CountOne(t, LOCAL_METHOD, Some(model));
    assert WalkChain(s, [LOCAL_METHOD][1..], Some(model)) == WalkChain(t, [LOCAL_METHOD][1..], Some(model)) == None;
  }
}
