/** The runtime configuration's own fields keep the promises of its layers. */
module ConfigTheorems {
  import opened Values
  import opened ConfigLayers
  import opened RuntimeConfig

  lemma DefaultSectionChecks(lex: Lexicon, s: string)
    requires s in SECTIONS
    ensures IsSection(lex, s, DefaultSection(s))
  {}

  lemma CoercedIsSection(lex: Lexicon, s: string, arg: Arg)
    requires s in SECTIONS && Coerce(lex, s, arg).Some?
    ensures IsSection(lex, s, Coerce(lex, s, arg).value)
  {
    DefaultSectionChecks(lex, s);
  }

  lemma MergeOfOwnKeys(defaults: Section, given: Section)
    requires given.Keys == defaults.Keys
    ensures Merge(defaults, given) == given
  {}

  /** Normalising a section twice is normalising it once. */
  lemma SectionIsStable(lex: Lexicon, s: string, m: Section)
    requires s in SECTIONS && IsSection(lex, s, m)
    ensures Coerce(lex, s, Given(Obj(m))) == Some(m)
  {
    MergeOfOwnKeys(DefaultSection(s), m);
    if s == "telemetry" {
      var given := m["downstream"].fields;
      MergeOfOwnKeys(DOWNSTREAM, given);
      assert Normal(lex, s, m) == m["downstream" := Obj(given)] == m;
    } else {
      assert Normal(lex, s, m) == m;
    }
  }

  lemma DefaultsCheck(n: string)
    ensures Checks(n, Default(n))
  {}

  lemma DefaultsArePlain(n: string)
    requires n in SCALARS
    ensures !(n in TEXTS && Default(n).Bool?) && !(n in FLAGS && Default(n).Str?)
  {}

  /** Only the unchecked texts can hold a boolean. */
  lemma BooleanTexts(n: string, v: Json)
    requires n in TEXTS && v.Bool? && Checks(n, v)
    ensures n in {"sidecar_image", "user_agent_claude_code_version", "default_direct_model"}
    ensures forall w :: Checks(n, w)
  {}

  lemma FlagsAreUnchecked(n: string, v: Json)
    requires n in FLAGS
    ensures Checks(n, v) && n !in TEXTS
  {}

  lemma RereadIs(lex: Lexicon, n: string, v: Json)
    ensures var arg := Softened(lex, n, v);
      Reread(FieldsOf(lex), n, v) == if arg.Given? then arg.value else Default(n)
  {}

  /** The loader changes a scalar exactly when it is a text holding a boolean or a flag holding a string. */
  lemma RereadDiffersIff(lex: Lexicon, n: string, v: Json)
    requires n in SCALARS
    ensures Reread(FieldsOf(lex), n, v) != v <==> (n in TEXTS && v.Bool?) || (n in FLAGS && v.Str?)
    ensures n in TEXTS && v.Bool? ==> Reread(FieldsOf(lex), n, v).Str?
    ensures n in FLAGS && v.Str? ==> Reread(FieldsOf(lex), n, v).Bool?
  {
    RereadIs(lex, n, v);
    DefaultsArePlain(n);
    if n in FLAGS {
      FlagsAreUnchecked(n, v);
      assert Default(n).Bool?;
    }
  }

  lemma ScalarIsSound(lex: Lexicon, n: string, v: Json)
    requires n in SCALARS
    ensures Reread(FieldsOf(lex), n, Default(n)) == Default(n)
    ensures Checks(n, v) ==> Checks(n, Reread(FieldsOf(lex), n, v))
    ensures var r := Reread(FieldsOf(lex), n, v); Reread(FieldsOf(lex), n, r) == r
  {
    var r := Reread(FieldsOf(lex), n, v);
    RereadDiffersIff(lex, n, v);
    RereadDiffersIff(lex, n, r);
    RereadDiffersIff(lex, n, Default(n));
    DefaultsArePlain(n);
    if n in FLAGS {
      FlagsAreUnchecked(n, r);
    } else if n in TEXTS && v.Bool? && Checks(n, v) {
      BooleanTexts(n, v);
    }
  }

  lemma ScalarsAreSound(lex: Lexicon)
    ensures AreScalarsSound(FieldsOf(lex))
  {
    var k := FieldsOf(lex);
    forall n | n in SCALARS ensures k.checks(n, k.default(n)) && Reread(k, n, k.default(n)) == k.default(n) {
      DefaultsCheck(n);
      ScalarIsSound(lex, n, Null);
    }
    forall n, v: Json {:trigger Reread(k, n, v)} | n in SCALARS
      ensures k.checks(n, v) ==> k.checks(n, Reread(k, n, v))
      ensures Reread(k, n, Reread(k, n, v)) == Reread(k, n, v)
    {
      ScalarIsSound(lex, n, v);
    }
  }

  lemma SectionsAreSound(lex: Lexicon)
    ensures AreSectionsSound(FieldsOf(lex))
  {
    var k := FieldsOf(lex);
    forall s, arg: Arg | s in SECTIONS && k.coerce(s, arg).Some? ensures k.isSection(s, k.coerce(s, arg).value) {
      CoercedIsSection(lex, s, arg);
    }
    forall s, m: Section | s in SECTIONS && k.isSection(s, m) ensures k.coerce(s, Given(Obj(m))) == Some(m) {
      SectionIsStable(lex, s, m);
    }
  }

  /** Everything the layers promise holds of the runtime configuration. */
  lemma FieldsAreSound(lex: Lexicon)
    ensures IsSound(FieldsOf(lex))
  {
    ScalarsAreSound(lex);
    SectionsAreSound(lex);
    ScalarsAreNoSections();
  }

  lemma ScalarsAreNoSections()
    ensures SCALARS !! SECTIONS
  {}
}
