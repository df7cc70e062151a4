/** The paths around the loader: its loop, the stored skill map, the environment override and the write path. */
module ConfigPaths {
  import opened Values
  import opened ConfigLayers
  import opened RuntimeConfig
  import opened ConfigTheorems

  const FIELD_ORDER: seq<string> := [
    "proxy_mode", "sidecar_image", "user_agent_claude_code_version", "default_direct_model", "context_limit",
    "status_timeout", "memory_writer_timeout", "log_level", "log_retention_days", "session_retention_days",
    "policy_summary_feedback", "codex_policy_feedback_format", "upstream_event_volume", "log_tool_failures",
    "auth_ignore_env", "interactive_anthropic_api_key", "skills", "statusline", "provider_trace", "telemetry"]

  /** What the loader's first loop makes of one key: a scalar is softened, a section stays raw. */
  function Collected(lex: Lexicon, data: map<string, Json>, name: string): Arg {
    if name !in data then Absent
    else if name in SECTIONS then Given(data[name])
    else Softened(lex, name, data[name])
  }

  method CollectFields(lex: Lexicon, data: map<string, Json>, order: seq<string>) returns (kwargs: map<string, Arg>)
    ensures forall name :: Lookup(kwargs, name) == if name in order then Collected(lex, data, name) else Absent
    ensures forall name <- kwargs :: !kwargs[name].Absent?
  {
    kwargs := map[];
    for i := 0 to |order|
      invariant forall name <- kwargs :: !kwargs[name].Absent?
      invariant forall name :: Lookup(kwargs, name) == if name in order[..i] then Collected(lex, data, name) else Absent
    {
      var name := order[i];
      assert order[..i + 1] == order[..i] + [name];
      if name in data {
        var arg := Collected(lex, data, name);
        if !arg.Absent? {
          kwargs := kwargs[name := arg];
        }
      }
    }
    assert order[..|order|] == order;
  }

  /** One subtree's fail-open: a section that raises is replaced by a fresh default. */
  method PatchSection(k: Fields, kwargs: map<string, Arg>, s: string) returns (patched: map<string, Arg>)
    requires forall name <- kwargs :: !kwargs[name].Absent?
    ensures forall name :: name != s ==> Lookup(patched, name) == Lookup(kwargs, name)
    ensures s !in kwargs ==> patched == kwargs
    ensures s in kwargs ==> Lookup(patched, s) == if k.coerce(s, kwargs[s]).None? then Fresh else kwargs[s]
    ensures forall name <- patched :: !patched[name].Absent?
  {
    patched := kwargs;
    if s in kwargs && k.coerce(s, kwargs[s]).None? {
      patched := kwargs[s := Fresh];
    }
  }

  lemma OrderListsTheFields()
    ensures forall name :: name in FIELD_ORDER <==> name in SCALARS + SECTIONS
  {}

  /** A section that is present and raises becomes a fresh default. */
  function Patched(k: Fields, name: string, arg: Arg): Arg {
    if name in SECTIONS && !arg.Absent? && k.coerce(name, arg).None? then Fresh else arg
  }

  /** Four patches in a row patch the four sections. */
  method PatchSections(k: Fields, kwargs: map<string, Arg>) returns (r: map<string, Arg>)
    requires forall name <- kwargs :: !kwargs[name].Absent?
    ensures forall name :: Lookup(r, name) == Patched(k, name, Lookup(kwargs, name))
    ensures forall name <- r :: !r[name].Absent?
  {
    r := PatchSection(k, kwargs, "statusline");
    r := PatchSection(k, r, "skills");
    r := PatchSection(k, r, "provider_trace");
    r := PatchSection(k, r, "telemetry");
  }

  /** What the loop and the patches make of one key is what the loader's specification says. */
  lemma PatchedIsLoaderArg(lex: Lexicon, data: map<string, Json>, name: string, raw: Arg, arg: Arg)
    requires raw == if name in SCALARS + SECTIONS then Collected(lex, data, name) else Absent
    requires arg == Patched(FieldsOf(lex), name, raw)
    ensures arg == LoaderArg(FieldsOf(lex), data, name)
  {}

  /** The keyword arguments as _dict_to_runtime_config gathers them. */
  method GatherArgs(lex: Lexicon, data: map<string, Json>) returns (kwargs: map<string, Arg>)
    ensures kwargs == LoaderArgs(FieldsOf(lex), data)
  {
    OrderListsTheFields();
    var raw := CollectFields(lex, data, FIELD_ORDER);
    kwargs := PatchSections(FieldsOf(lex), raw);
    forall name ensures Lookup(kwargs, name) == LoaderArg(FieldsOf(lex), data, name) {
      PatchedIsLoaderArg(lex, data, name, Lookup(raw, name), Lookup(kwargs, name));
    }
    GatheredArgs(FieldsOf(lex), data, kwargs);
  }

  /** _dict_to_runtime_config: its loops compute the loader's specification. */
  method DictToRuntimeConfig(lex: Lexicon, data: map<string, Json>) returns (c: Config)
    ensures c == Loaded(FieldsOf(lex), data)
  {
    var kwargs := GatherArgs(lex, data);
    var r := Construct(FieldsOf(lex), kwargs);
    c := if r.Some? then r.value else Defaults(FieldsOf(lex));
  }

  /** load_stored_skill_invocation, once the file holds a mapping: {} where the section raises. */
  function StoredSkills(lex: Lexicon, data: map<string, Json>): Json {
    var r := Coerce(lex, "skills", Given(Field(data, "skills")));
    if r.Some? then r.value["invocation"] else Obj(map[])
  }

  /** The invocation map of a configuration. */
  function SkillsOf(c: Config): Json {
    if "skills" in c.sections then Field(c.sections["skills"], "invocation") else Null
  }

  /** Every scalar that the file holds passes its check, once softened. */
  predicate AreScalarsLoadable(lex: Lexicon, data: map<string, Json>) {
    forall n <- SCALARS :: n in data ==> Checks(n, Reread(FieldsOf(lex), n, data[n]))
  }

  /**
   * The stored skill map is the loaded one unless some unrelated scalar is bad while some skill is stored: the
   * reader that ignores unrelated fields then still sees what the loader has dropped.
   */
  lemma StoredSkillsAgreeIff(lex: Lexicon, data: map<string, Json>)
    ensures StoredSkills(lex, data) == SkillsOf(Loaded(FieldsOf(lex), data))
      <==> (AreScalarsLoadable(lex, data) || StoredSkills(lex, data) == Obj(map[]))
  {
    FieldsAreSound(lex);
    LoadedSection(FieldsOf(lex), data, "skills");
    FallsBackIff(FieldsOf(lex), data);
    StoredSkillsAre(lex, data);
  }

  lemma StoredSkillsAre(lex: Lexicon, data: map<string, Json>)
    ensures StoredSkills(lex, data) ==
      var r := FieldsOf(lex).coerce("skills", if "skills" in data then Given(data["skills"]) else Absent);
      Field(if r.Some? then r.value else DefaultSection("skills"), "invocation")
  {}

  /** The log level an environment word stands for; None where the coercion raises. */
  function Level(word: string): Option<string> {
    if word in {"1", "true", "yes"} then Some("debug")
    else if word in {"0", "false", "no", "off"} then Some("off")
    else if word in {"debug", "info", "warning"} then Some(word)
    else None
  }

  /** The level that FORGE_DEBUG asks for; an unset or blank variable and a word without a level ask for none. */
  function EnvLevel(lex: Lexicon, raw: string): Option<Json> {
    var word := lex.fold(raw);
    if word == "" || Level(word).None? then None else Some(Str(Level(word).value))
  }

  lemma LevelIsValid(lex: Lexicon, raw: string)
    ensures "log_level" in SCALARS
    ensures EnvLevel(lex, raw).Some? ==> Checks("log_level", EnvLevel(lex, raw).value)
  {}

  /** The environment override changes the log level, to a valid one, and nothing else. */
  lemma EnvChangesOnlyTheLogLevel(lex: Lexicon, c: Config, raw: string)
    requires IsValid(FieldsOf(lex), c)
    ensures var level := EnvLevel(lex, raw);
      Overridden(FieldsOf(lex), c, "log_level", level)
        == if level.Some? then c.(scalars := c.scalars["log_level" := level.value]) else c
    ensures IsValid(FieldsOf(lex), Overridden(FieldsOf(lex), c, "log_level", EnvLevel(lex, raw)))
  {
    LevelIsValid(lex, raw);
    FieldsAreSound(lex);
    OverriddenIsLocal(FieldsOf(lex), c, "log_level", EnvLevel(lex, raw));
  }
}
