/** What the configuration's words mean, said on the words: switches, flags, the log level, the ranges of values. */
module ConfigMeaning {
  import opened Values
  import opened ConfigLayers
  import opened RuntimeConfig
  import opened ConfigTheorems
  import opened ConfigPaths
  import opened ConfigWrites

  /** What the loader softens alike it loads alike, whatever else the file holds. */
  lemma SoftenedAlikeLoadsAlike(k: Fields, data: map<string, Json>, name: string, v: Json, u: Json)
    requires name in k.scalars && name !in k.sections && k.soften(name, v) == k.soften(name, u)
    ensures Loaded(k, data[name := v]) == Loaded(k, data[name := u])
  {
    var a, b := data[name := v], data[name := u];
    forall n ensures LoaderArg(k, a, n) == LoaderArg(k, b, n) {}
    assert LoaderArgs(k, a) == LoaderArgs(k, b);
  }

  lemma SoftenedAwayLoadsAsMissing(k: Fields, data: map<string, Json>, name: string, v: Json)
    requires name in k.scalars && name !in k.sections && k.soften(name, v).Absent?
    ensures Loaded(k, data[name := v]) == Loaded(k, data - {name})
  {
    var a, b := data[name := v], data - {name};
    forall n ensures LoaderArg(k, a, n) == LoaderArg(k, b, n) {}
    assert LoaderArgs(k, a) == LoaderArgs(k, b);
  }

  lemma KindsOfScalars(name: string)
    ensures name in TEXTS || name in FLAGS ==> name in SCALARS && name !in SECTIONS
    ensures name in TEXTS ==> name !in FLAGS
  {}

  /** A boolean in a text field, as YAML reads a bare on or off, loads as that word. */
  lemma SwitchesLoadAsWords(lex: Lexicon, data: map<string, Json>, name: string, on: bool)
    requires name in TEXTS
    ensures Loaded(FieldsOf(lex), data[name := Bool(on)])
      == Loaded(FieldsOf(lex), data[name := Str(if on then "on" else "off")])
  {
    KindsOfScalars(name);
    SoftenedAlikeLoadsAlike(FieldsOf(lex), data, name, Bool(on), Str(if on then "on" else "off"));
  }

  /** A quoted flag loads as the boolean it names, and as if it were missing where it names none. */
  lemma FlagWordsLoadAsBooleans(lex: Lexicon, data: map<string, Json>, name: string, word: string)
    requires name in FLAGS
    ensures lex.fold(word) in {"1", "true", "yes", "on"} ==>
      Loaded(FieldsOf(lex), data[name := Str(word)]) == Loaded(FieldsOf(lex), data[name := Bool(true)])
    ensures lex.fold(word) in {"0", "false", "no", "off", ""} ==>
      Loaded(FieldsOf(lex), data[name := Str(word)]) == Loaded(FieldsOf(lex), data[name := Bool(false)])
    ensures lex.fold(word) !in {"1", "true", "yes", "on", "0", "false", "no", "off", ""} ==>
      Loaded(FieldsOf(lex), data[name := Str(word)]) == Loaded(FieldsOf(lex), data - {name})
  {
    var k := FieldsOf(lex);
    KindsOfScalars(name);
    if lex.fold(word) in {"1", "true", "yes", "on"} {
      SoftenedAlikeLoadsAlike(k, data, name, Str(word), Bool(true));
    } else if lex.fold(word) in {"0", "false", "no", "off", ""} {
      SoftenedAlikeLoadsAlike(k, data, name, Str(word), Bool(false));
    } else {
      SoftenedAwayLoadsAsMissing(k, data, name, Str(word));
    }
  }

  /** The command line and the loader read every nonblank flag word alike, where both see it in one case. */
  lemma SetReadsFlagsAsTheLoader(lex: Lexicon, p: Parser, name: string, word: string)
    requires name in FLAGS && p.lower(word) == lex.fold(word) != ""
    ensures CoerceValue(p, name, word).Some? <==> Softened(lex, name, Str(word)).Given?
    ensures CoerceValue(p, name, word).Some? ==> Softened(lex, name, Str(word)) == Given(CoerceValue(p, name, word).value)
    ensures CoerceValue(p, name, word) == Some(Bool(true)) <==> p.lower(word) in {"1", "true", "yes", "on"}
    ensures CoerceValue(p, name, word) == Some(Bool(false)) <==> p.lower(word) in {"0", "false", "no", "off"}
  {}

  /** The numbers are read by the reader of their type, every text but a flag is taken as it stands. */
  lemma SetReadsByType(p: Parser, name: string, text: string, v: Json)
    requires name in SCALARS - FLAGS
    ensures CoerceValue(p, name, text) == Some(v) <==>
      if name == "status_timeout" then v.Float? && p.float_(text) == Some(v.r)
      else if name in {"context_limit", "memory_writer_timeout", "log_retention_days", "session_retention_days"} then
        v.Int? && p.int_(text) == Some(v.n)
      else v == Str(text)
  {}

  /** The level that FORGE_DEBUG asks for, word by word. */
  lemma DebugWords(lex: Lexicon, raw: string)
    ensures EnvLevel(lex, raw) == Some(Str("debug")) <==> lex.fold(raw) in {"1", "true", "yes", "debug"}
    ensures EnvLevel(lex, raw) == Some(Str("off")) <==> lex.fold(raw) in {"0", "false", "no", "off"}
    ensures EnvLevel(lex, raw) == Some(Str("info")) <==> lex.fold(raw) == "info"
    ensures EnvLevel(lex, raw) == Some(Str("warning")) <==> lex.fold(raw) == "warning"
    ensures EnvLevel(lex, raw) == None <==>
      lex.fold(raw) !in {"1", "true", "yes", "debug", "0", "false", "no", "off", "info", "warning"}
  {}

  /** The words of the checked texts. */
  lemma ModeChecksAreWords(name: string, v: Json)
    ensures name == "proxy_mode" ==> (Checks(name, v) <==> v == Str("host") || v == Str("sidecar"))
    ensures name == "log_level" ==>
      (Checks(name, v) <==> v == Str("off") || v == Str("debug") || v == Str("info") || v == Str("warning"))
    ensures name == "interactive_anthropic_api_key" ==> (Checks(name, v) <==> v == Str("inherit") || v == Str("omit"))
  {}

  lemma FeedbackChecksAreWords(name: string, v: Json)
    ensures name == "policy_summary_feedback" ==> (Checks(name, v) <==> v == Str("on") || v == Str("off"))
    ensures name == "codex_policy_feedback_format" ==> (Checks(name, v) <==> v == Str("normal") || v == Str("source-only"))
    ensures name == "upstream_event_volume" ==> (Checks(name, v) <==> v == Str("non_success") || v == Str("all"))
  {}

  /** The ranges of the numbers; every scalar beside these and the words above is unchecked. */
  lemma ChecksAreRanges(name: string, v: Json)
    ensures name == "context_limit" || name == "memory_writer_timeout" ==>
      (Checks(name, v) <==> Number(v).Some? && Number(v).value >= 1.0)
    ensures name == "log_retention_days" || name == "session_retention_days" ==>
      (Checks(name, v) <==> Number(v).Some? && Number(v).value >= 0.0)
    ensures name == "status_timeout" ==> (Checks(name, v) <==> Number(v).Some? && Number(v).value > 0.0)
    ensures name in {"sidecar_image", "user_agent_claude_code_version", "default_direct_model"} + FLAGS ==> Checks(name, v)
  {}

  lemma LoadedIsChecked(lex: Lexicon, data: map<string, Json>, name: string)
    requires name in SCALARS
    ensures name in Loaded(FieldsOf(lex), data).scalars && Checks(name, Loaded(FieldsOf(lex), data).scalars[name])
  {
    var k := FieldsOf(lex);
    FieldsAreSound(lex);
    LoaderIsAlwaysValid(k, data);
    assert k.checks(name, Loaded(k, data).scalars[name]);
  }

  /** Whatever the file holds, each loaded scalar is one of its words or in its range. */
  lemma LoadedRanges(lex: Lexicon, data: map<string, Json>, name: string)
    requires name in SCALARS
    ensures name in Loaded(FieldsOf(lex), data).scalars
    ensures var v := Loaded(FieldsOf(lex), data).scalars[name];
      && (name == "proxy_mode" ==> v == Str("host") || v == Str("sidecar"))
      && (name == "log_level" ==> v == Str("off") || v == Str("debug") || v == Str("info") || v == Str("warning"))
      && (name == "policy_summary_feedback" ==> v == Str("on") || v == Str("off"))
      && (name == "codex_policy_feedback_format" ==> v == Str("normal") || v == Str("source-only"))
      && (name == "upstream_event_volume" ==> v == Str("non_success") || v == Str("all"))
      && (name == "interactive_anthropic_api_key" ==> v == Str("inherit") || v == Str("omit"))
      && (name == "context_limit" || name == "memory_writer_timeout" ==> Number(v).Some? && Number(v).value >= 1.0)
      && (name == "log_retention_days" || name == "session_retention_days" ==> Number(v).Some? && Number(v).value >= 0.0)
      && (name == "status_timeout" ==> Number(v).Some? && Number(v).value > 0.0)
  {
    LoadedIsChecked(lex, data, name);
    ModeChecksAreWords(name, Loaded(FieldsOf(lex), data).scalars[name]);
    FeedbackChecksAreWords(name, Loaded(FieldsOf(lex), data).scalars[name]);
    ChecksAreRanges(name, Loaded(FieldsOf(lex), data).scalars[name]);
  }

  lemma LoadedIsSection(lex: Lexicon, data: map<string, Json>, name: string)
    requires name in SECTIONS
    ensures name in Loaded(FieldsOf(lex), data).sections && IsSection(lex, name, Loaded(FieldsOf(lex), data).sections[name])
  {
    var k := FieldsOf(lex);
    FieldsAreSound(lex);
    LoaderIsAlwaysValid(k, data);
    assert k.isSection(name, Loaded(k, data).sections[name]);
  }

  /** Whatever the file holds, the loaded skill map names skills alone, each explicit or left to the model. */
  lemma LoadedSkills(lex: Lexicon, data: map<string, Json>)
    ensures var c := Loaded(FieldsOf(lex), data);
      && SkillsOf(c).Obj?
      && forall skill <- SkillsOf(c).fields ::
           lex.isSkill(skill) && (SkillsOf(c).fields[skill] == Str("explicit") || SkillsOf(c).fields[skill] == Str("model"))
  {
    LoadedIsSection(lex, data, "skills");
  }

  /** Whatever the file holds, the loaded telemetry bounds are two nonnegative integers, and the trace flag a boolean. */
  lemma LoadedTelemetry(lex: Lexicon, data: map<string, Json>)
    ensures var sections := Loaded(FieldsOf(lex), data).sections;
      && "telemetry" in sections && "provider_trace" in sections
      && Field(sections["provider_trace"], "inject_provider_user").Bool?
      && Field(sections["telemetry"], "downstream").Obj?
      && var bounds := Field(sections["telemetry"], "downstream").fields;
         && Field(bounds, "retention_days").Int? && Field(bounds, "retention_days").n >= 0
         && Field(bounds, "max_total_mb").Int? && Field(bounds, "max_total_mb").n >= 0
  {
    LoadedIsSection(lex, data, "telemetry");
    LoadedIsSection(lex, data, "provider_trace");
  }

  lemma StatusLineHasKeys(m: Section)
    requires m.Keys == DefaultSection("statusline").Keys
    ensures {"segments", "cost_mode", "palette", "glyphs", "cache_hit", "cache_hit_ttl", "forge_cost_ttl"} == m.Keys
  {}

  lemma StatusLineMeans(lex: Lexicon, m: Section)
    requires IsSection(lex, "statusline", m)
    ensures Field(m, "cost_mode") in {Str("auto"), Str("api"), Str("subscription")}
    ensures Field(m, "palette") in {Str("default"), Str("earthy")} && Field(m, "glyphs") in {Str("ascii"), Str("unicode")}
    ensures Field(m, "cache_hit") in {Str("auto"), Str("off")}
    ensures Field(m, "segments").Arr? && (forall item <- Field(m, "segments").items :: item.Str?)
    ensures Number(Field(m, "cache_hit_ttl")).Some? && Number(Field(m, "cache_hit_ttl")).value >= 1.0
    ensures Number(Field(m, "forge_cost_ttl")).Some? && Number(Field(m, "forge_cost_ttl")).value >= 1.0
  {
    StatusLineHasKeys(m);
  }

  /** Whatever the file holds, the loaded status line has only known modes, string segments and positive ages. */
  lemma LoadedStatusLine(lex: Lexicon, data: map<string, Json>)
    ensures "statusline" in Loaded(FieldsOf(lex), data).sections
    ensures var line := Loaded(FieldsOf(lex), data).sections["statusline"];
      && Field(line, "cost_mode") in {Str("auto"), Str("api"), Str("subscription")}
      && Field(line, "palette") in {Str("default"), Str("earthy")} && Field(line, "glyphs") in {Str("ascii"), Str("unicode")}
      && Field(line, "cache_hit") in {Str("auto"), Str("off")}
      && Field(line, "segments").Arr? && (forall item <- Field(line, "segments").items :: item.Str?)
      && Number(Field(line, "cache_hit_ttl")).Some? && Number(Field(line, "cache_hit_ttl")).value >= 1.0
      && Number(Field(line, "forge_cost_ttl")).Some? && Number(Field(line, "forge_cost_ttl")).value >= 1.0
  {
    LoadedIsSection(lex, data, "statusline");
    StatusLineMeans(lex, Loaded(FieldsOf(lex), data).sections["statusline"]);
  }

  /** One scalar alone in the file is loaded as softened if it passes its check, and as the default otherwise. */
  lemma OneScalarLoads(k: Fields, name: string, v: Json)
    requires IsSound(k) && name in k.scalars
    ensures var c := Loaded(k, map[name := v]);
      && name in c.scalars
      && c.scalars[name] == if k.checks(name, Reread(k, name, v)) then Reread(k, name, v) else k.default(name)
  {
    var data := map[name := v];
    FallsBackIff(k, data);
    if k.checks(name, Reread(k, name, v)) {
      assert !FallsBack(k, data);
      assert Lookup(LoaderArgs(k, data), name) == LoaderArg(k, data, name);
    } else {
      assert name in data && !k.checks(name, Reread(k, name, data[name]));
      assert FallsBack(k, data);
    }
  }
}
