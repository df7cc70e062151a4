/** Layered runtime configuration: the strict constructor, the fail-open loader and the environment override. */
module RuntimeConfig {
  import opened Values
  import opened ConfigLayers

  /** fold strips and lower-cases; isSkill is the skill-name pattern with its length bound. */
  datatype Lexicon = Lexicon(fold: string -> string, isSkill: string -> bool)

  const TEXTS: set<string> := {
    "proxy_mode", "sidecar_image", "user_agent_claude_code_version", "default_direct_model", "log_level",
    "policy_summary_feedback", "codex_policy_feedback_format", "upstream_event_volume", "interactive_anthropic_api_key"}
  const FLAGS: set<string> := {"log_tool_failures", "auth_ignore_env"}
  const NUMBERS: set<string> := {
    "context_limit", "status_timeout", "memory_writer_timeout", "log_retention_days", "session_retention_days"}
  const SCALARS: set<string> := TEXTS + FLAGS + NUMBERS
  const SECTIONS: set<string> := {"skills", "statusline", "provider_trace", "telemetry"}

  function Default(name: string): Json {
    match name
    case "proxy_mode" => Str("host")
    case "sidecar_image" => Str("forge-sidecar:latest")
    case "context_limit" => Int(200000)
    case "status_timeout" => Float(2.0)
    case "memory_writer_timeout" => Int(300)
    case "log_level" => Str("off")
    case "log_retention_days" => Int(0)
    case "session_retention_days" => Int(0)
    case "policy_summary_feedback" => Str("on")
    case "codex_policy_feedback_format" => Str("normal")
    case "upstream_event_volume" => Str("non_success")
    case "log_tool_failures" => Bool(false)
    case "auth_ignore_env" => Bool(false)
    case "interactive_anthropic_api_key" => Str("inherit")
    case _ => Str("")
  }

  predicate OneOf(v: Json, words: set<string>) {
    v.Str? && v.s in words
  }

  predicate AtLeast(v: Json, least: real) {
    Number(v).Some? && Number(v).value >= least
  }

  /** The constructor's check of one scalar; five fields have none, whatever their declared type. */
  predicate Checks(name: string, v: Json) {
    match name
    case "proxy_mode" => OneOf(v, {"host", "sidecar"})
    case "context_limit" => AtLeast(v, 1.0)
    case "status_timeout" => Number(v).Some? && Number(v).value > 0.0
    case "memory_writer_timeout" => AtLeast(v, 1.0)
    case "log_level" => OneOf(v, {"off", "debug", "info", "warning"})
    case "log_retention_days" => AtLeast(v, 0.0)
    case "session_retention_days" => AtLeast(v, 0.0)
    case "policy_summary_feedback" => OneOf(v, {"on", "off"})
    case "codex_policy_feedback_format" => OneOf(v, {"normal", "source-only"})
    case "upstream_event_volume" => OneOf(v, {"non_success", "all"})
    case "interactive_anthropic_api_key" => OneOf(v, {"inherit", "omit"})
    case _ => true
  }

  const DOWNSTREAM: Section := map["retention_days" := Int(14), "max_total_mb" := Int(512)]

  function DefaultSection(name: string): Section {
    match name
    case "skills" => map["invocation" := Obj(map[])]
    case "statusline" => map[
      "segments" := Arr([]), "cost_mode" := Str("auto"), "palette" := Str("default"), "glyphs" := Str("ascii"),
      "cache_hit" := Str("auto"), "cache_hit_ttl" := Int(12), "forge_cost_ttl" := Int(10)]
    case "provider_trace" => map["inject_provider_user" := Bool(false)]
    case _ => map["downstream" := Obj(DOWNSTREAM)]
  }

  /** Known keys take the given value; unknown ones are dropped. */
  function Merge(defaults: Section, given: Section): (r: Section)
    ensures r.Keys == defaults.Keys
  {
    map k <- defaults :: if k in given then given[k] else defaults[k]
  }

  const YES: set<string> := {"1", "true", "yes", "on"}
  const NO: set<string> := {"0", "false", "no", "off", ""}

  function CoerceBool(lex: Lexicon, v: Json): Json {
    if !v.Str? then v
    else if lex.fold(v.s) in YES then Bool(true)
    else if lex.fold(v.s) in NO then Bool(false)
    else v
  }

  predicate IsCount(v: Json) {
    v.Int? && v.n >= 0
  }

  /** What a section's own constructor accepts. */
  predicate SectionChecks(lex: Lexicon, name: string, m: Section)
    requires m.Keys == DefaultSection(name).Keys
  {
    match name
    case "skills" =>
      m["invocation"].Obj?
      && forall k <- m["invocation"].fields :: lex.isSkill(k) && OneOf(m["invocation"].fields[k], {"explicit", "model"})
    case "statusline" =>
      && OneOf(m["cost_mode"], {"auto", "api", "subscription"}) && OneOf(m["palette"], {"default", "earthy"})
      && OneOf(m["glyphs"], {"ascii", "unicode"}) && OneOf(m["cache_hit"], {"auto", "off"})
      && m["segments"].Arr? && (forall item <- m["segments"].items :: item.Str?)
      && AtLeast(m["cache_hit_ttl"], 1.0) && AtLeast(m["forge_cost_ttl"], 1.0)
    case "provider_trace" => m["inject_provider_user"].Bool?
    case _ =>
      m["downstream"].Obj? && m["downstream"].fields.Keys == DOWNSTREAM.Keys
      && IsCount(m["downstream"].fields["retention_days"]) && IsCount(m["downstream"].fields["max_total_mb"])
  }

  /** What a section's own constructor rewrites before it checks. */
  function Normal(lex: Lexicon, name: string, m: Section): (r: Section)
    requires m.Keys == DefaultSection(name).Keys
    ensures r.Keys == m.Keys
  {
    if name == "provider_trace" then m["inject_provider_user" := CoerceBool(lex, m["inject_provider_user"])]
    else if name == "skills" || name == "statusline" then m
    else
      match m["downstream"]
      case Null => m["downstream" := Obj(DOWNSTREAM)]
      case Obj(given) => m["downstream" := Obj(Merge(DOWNSTREAM, given))]
      case _ => m
  }

  /** The section's coercion; None where it raises. */
  function Coerce(lex: Lexicon, name: string, arg: Arg): Option<Section> {
    match arg
    case Given(Obj(given)) =>
      var m := Normal(lex, name, Merge(DefaultSection(name), given));
      if SectionChecks(lex, name, m) then Some(m) else None
    case Given(value) => if value.Null? then Some(DefaultSection(name)) else None
    case _ => Some(DefaultSection(name))
  }

  /** The loader's view of one raw scalar; Absent where it falls back to the default. */
  function Softened(lex: Lexicon, name: string, v: Json): Arg {
    if v.Bool? && name in TEXTS then Given(Str(if v.b then "on" else "off"))
    else if v.Str? && name in FLAGS then
      var flag := CoerceBool(lex, v);
      if flag.Bool? then Given(flag) else Absent
    else Given(v)
  }

  function FieldsOf(lex: Lexicon): Fields {
    Fields(SCALARS, SECTIONS, Default, Checks, (name, v) => Softened(lex, name, v), DefaultSection,
      (name, m) => IsSection(lex, name, m), (name, arg) => Coerce(lex, name, arg))
  }

  predicate IsSection(lex: Lexicon, name: string, m: Section) {
    m.Keys == DefaultSection(name).Keys && SectionChecks(lex, name, m)
  }
}
