/** The file-size policy: rules, method chains, tokenizer families and thresholds. */
module FileLimits {
  import opened Values

  const LOCAL_METHOD: string := "local-tiktoken"
  const TIKTOKEN: string := "tiktoken"
  const ANTHROPIC: string := "anthropic"
  const GEMINI: string := "gemini"
  const PROVIDER_FAMILIES: set<string> := {ANTHROPIC, GEMINI}
  const DEFAULT_METHODS: seq<string> := [LOCAL_METHOD]
  const DEFAULT_MAX_LINES: int := 2000

  /** A rule's limits: what remains of it without its pattern and skip keys; Null is absent. */
  datatype Limits = Limits(maxLines: Option<int>, target: Json, max: Json, methods: Json)

  datatype Rule = Rule(pattern: string, skip: bool, limits: Limits)

  /** matches is the glob matcher; text renders a list element as a stripped string. */
  datatype Policy = Policy(
    rules: seq<Rule>, whitelist: seq<string>, methods: Json, matches: (string, string) -> bool, text: Json -> string)

  predicate IsWhitelisted(p: Policy, path: string) {
    p.whitelist == [] || exists prefix <- p.whitelist :: prefix <= path
  }

  /** First match wins, and a skipping rule matches nothing further. */
  function LimitsFrom(rules: seq<Rule>, p: Policy, path: string): Option<Limits> {
    if rules == [] then None
    else if p.matches(path, rules[0].pattern) then
      if rules[0].skip then None else Some(rules[0].limits)
    else LimitsFrom(rules[1..], p, path)
  }

  function GetLimits(p: Policy, path: string): Option<Limits> {
    LimitsFrom(p.rules, p, path)
  }

  function NonBlank(p: Policy, items: seq<Json>): seq<string> {
    if items == [] then []
    else (if p.text(items[0]) == "" then [] else [p.text(items[0])]) + NonBlank(p, items[1..])
  }

  function Methods(p: Policy, limits: Limits): seq<string> {
    var chosen := if Truthy(limits.methods) then limits.methods else p.methods;
    if !chosen.Arr? then DEFAULT_METHODS
    else
      var chain := NonBlank(p, chosen.items);
      if chain == [] then DEFAULT_METHODS else chain
  }

  function FamilyOf(m: string): Option<string> {
    if m == LOCAL_METHOD then Some(TIKTOKEN)
    else if "claude-" <= m then Some(ANTHROPIC)
    else if "gemini-" <= m then Some(GEMINI)
    else if "gpt-" <= m || "o1-" <= m || "o3-" <= m || "o4-" <= m || "chatgpt-" <= m then Some(TIKTOKEN)
    else None
  }

  function ProviderFamilies(methods: seq<string>): set<string> {
    set m <- methods | FamilyOf(m).Some? && FamilyOf(m).value in PROVIDER_FAMILIES :: FamilyOf(m).value
  }

  /** Method i is the first of the family. */
  predicate IsFirstOf(methods: seq<string>, i: nat, family: string) {
    && i < |methods| && FamilyOf(methods[i]) == Some(family)
    && forall j | 0 <= j < i :: FamilyOf(methods[j]) != Some(family)
  }

  function MethodForFamily(methods: seq<string>, family: string): (r: Option<string>)
    ensures r.Some? ==> exists i: nat | i < |methods| :: methods[i] == r.value && IsFirstOf(methods, i, family)
    ensures r.Some? ==> r.value in methods && FamilyOf(r.value) == Some(family)
    ensures r.None? ==> forall m <- methods :: FamilyOf(m) != Some(family)
  {
    if methods == [] then None
    else if FamilyOf(methods[0]) == Some(family) then Some(methods[0])
    else MethodForFamily(methods[1..], family)
  }

  /** Python's int() of a float: toward zero. */
  function Truncated(r: real): int {
    if r >= 0.0 then r.Floor else -((-r).Floor)
  }

  function NumberOf(j: Json): Option<int> {
    match j
    case Int(n) => Some(n)
    case Float(r) => Some(Truncated(r))
    case _ => None
  }

  function LimitFor(spec: Json, family: string): Option<int> {
    if spec.Obj? then
      if family in spec.fields then NumberOf(spec.fields[family]) else None
    else NumberOf(spec)
  }

  /** The conservative local screen: the lowest tiktoken threshold of target and maximum. */
  function ProbeThreshold(limits: Limits): (r: Option<int>)
    ensures r.None? <==> LimitFor(limits.target, TIKTOKEN).None? && LimitFor(limits.max, TIKTOKEN).None?
    ensures r.Some? ==> r == LimitFor(limits.target, TIKTOKEN) || r == LimitFor(limits.max, TIKTOKEN)
    ensures r.Some? ==> forall spec <- [limits.target, limits.max] ::
              LimitFor(spec, TIKTOKEN).Some? ==> r.value <= LimitFor(spec, TIKTOKEN).value
  {
    var target, max := LimitFor(limits.target, TIKTOKEN), LimitFor(limits.max, TIKTOKEN);
    if target.None? then max
    else if max.None? || target.value <= max.value then target
    else max
  }
}
