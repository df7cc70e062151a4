/**
 * A layered configuration over any set of fields: the strict constructor, the fail-open loader, and what they
 * promise each other.
 */
module ConfigLayers {
  import opened Values

  /** A section's dataclass, field by field. */
  type Section = map<string, Json>

  /** Every field holds its effective value. */
  datatype Config = Config(scalars: map<string, Json>, sections: map<string, Section>)

  /** A constructor argument: nothing, a raw value, or a default section object. */
  datatype Arg = Absent | Given(value: Json) | Fresh

  /**
   * What the layers need to know of the fields: their defaults, the constructor's checks, the section coercions
   * (None where they raise), and how the loader softens a raw scalar (Absent where it falls back to the default).
   */
  datatype Fields = Fields(
    scalars: set<string>, sections: set<string>,
    default: string -> Json, checks: (string, Json) -> bool, soften: (string, Json) -> Arg,
    defaultSection: string -> Section, isSection: (string, Section) -> bool, coerce: (string, Arg) -> Option<Section>)

  function Lookup(args: map<string, Arg>, name: string): Arg {
    if name in args then args[name] else Absent
  }

  function ScalarOf(k: Fields, name: string, arg: Arg): Json {
    if arg.Given? then arg.value else k.default(name)
  }

  /** How the loader reads a raw scalar. */
  function Reread(k: Fields, name: string, v: Json): Json {
    ScalarOf(k, name, k.soften(name, v))
  }

  /** The constructor raises on an unknown argument, a failing section or a failing scalar. */
  predicate IsAccepted(k: Fields, args: map<string, Arg>) {
    && args.Keys <= k.scalars + k.sections
    && (forall s <- k.sections :: k.coerce(s, Lookup(args, s)).Some?)
    && forall n <- k.scalars :: k.checks(n, ScalarOf(k, n, Lookup(args, n)))
  }

  function Construct(k: Fields, args: map<string, Arg>): Option<Config> {
    if !IsAccepted(k, args) then None
    else Some(Config(
      map n <- k.scalars :: ScalarOf(k, n, Lookup(args, n)),
      map s <- k.sections :: k.coerce(s, Lookup(args, s)).value))
  }

  function Defaults(k: Fields): Config {
    Config(map n <- k.scalars :: k.default(n), map s <- k.sections :: k.defaultSection(s))
  }

  function Plain(k: Fields, data: map<string, Json>): map<string, Arg> {
    map name <- data | name in k.scalars + k.sections :: Given(data[name])
  }

  /** The write path's validation: the known keys as they are. */
  function Strict(k: Fields, data: map<string, Json>): Option<Config> {
    Construct(k, Plain(k, data))
  }

  /** The section is present and its coercion raises. */
  predicate Fails(k: Fields, data: map<string, Json>, s: string) {
    s in k.sections && s in data && k.coerce(s, Given(data[s])).None?
  }

  /** The loader's argument for one key: sections that fail are replaced by their defaults. */
  function LoaderArg(k: Fields, data: map<string, Json>, name: string): Arg {
    if name !in data || name !in k.scalars + k.sections then Absent
    else if name in k.sections then if Fails(k, data, name) then Fresh else Given(data[name])
    else k.soften(name, data[name])
  }

  function LoaderArgs(k: Fields, data: map<string, Json>): map<string, Arg> {
    map name <- data | !LoaderArg(k, data, name).Absent? :: LoaderArg(k, data, name)
  }

  /** The loader: what the constructor still rejects is replaced as a whole. */
  function Loaded(k: Fields, data: map<string, Json>): Config {
    var r := Construct(k, LoaderArgs(k, data));
    if r.Some? then r.value else Defaults(k)
  }

  predicate FallsBack(k: Fields, data: map<string, Json>) {
    Construct(k, LoaderArgs(k, data)).None?
  }

  /** Every check of the constructor, on an object that exists. */
  predicate IsValid(k: Fields, c: Config) {
    && c.scalars.Keys == k.scalars && (forall n <- k.scalars :: k.checks(n, c.scalars[n]))
    && c.sections.Keys == k.sections && forall s <- k.sections :: k.isSection(s, c.sections[s])
  }

  /** asdict: the sections become plain mappings. */
  function AsDict(k: Fields, c: Config): map<string, Json>
    requires c.scalars.Keys == k.scalars && c.sections.Keys == k.sections
  {
    map name <- k.scalars + k.sections :: if name in k.scalars then c.scalars[name] else Obj(c.sections[name])
  }

  /** Defaults pass their checks, and softening a value keeps it acceptable and softens it for good. */
  ghost predicate AreScalarsSound(k: Fields) {
    && (forall n <- k.scalars :: k.checks(n, k.default(n)) && Reread(k, n, k.default(n)) == k.default(n))
    && (forall n <- k.scalars, v: Json :: k.checks(n, v) ==> k.checks(n, Reread(k, n, v)))
    && (forall n <- k.scalars, v: Json :: Reread(k, n, Reread(k, n, v)) == Reread(k, n, v))
  }

  /** A coercion yields a section, and coercing a section leaves it alone. */
  ghost predicate AreSectionsSound(k: Fields) {
    && (forall s <- k.sections, arg: Arg :: !arg.Given? ==> k.coerce(s, arg) == Some(k.defaultSection(s)))
    && (forall s <- k.sections, arg: Arg :: k.coerce(s, arg).Some? ==> k.isSection(s, k.coerce(s, arg).value))
    && (forall s <- k.sections, m: Section :: k.isSection(s, m) ==> k.coerce(s, Given(Obj(m))) == Some(m))
  }

  /** What the promises below need of the fields. */
  ghost predicate IsSound(k: Fields) {
    k.scalars !! k.sections && AreScalarsSound(k) && AreSectionsSound(k)
  }

  /** Whatever the file holds, the loaded configuration satisfies every check of the constructor. */
  lemma LoaderIsAlwaysValid(k: Fields, data: map<string, Json>)
    requires IsSound(k)
    ensures IsValid(k, Loaded(k, data))
  {
    forall s | s in k.sections ensures k.isSection(s, k.defaultSection(s)) {
      assert k.coerce(s, Absent) == Some(k.defaultSection(s));
    }
  }

  /** Arguments that the constructor cannot tell apart. */
  predicate SameArgs(k: Fields, a: map<string, Arg>, b: map<string, Arg>) {
    && a.Keys <= k.scalars + k.sections && b.Keys <= k.scalars + k.sections
    && (forall n <- k.scalars :: ScalarOf(k, n, Lookup(a, n)) == ScalarOf(k, n, Lookup(b, n)))
    && forall s <- k.sections :: k.coerce(s, Lookup(a, s)) == k.coerce(s, Lookup(b, s))
  }

  lemma SameArgsSameConfig(k: Fields, a: map<string, Arg>, b: map<string, Arg>)
    requires SameArgs(k, a, b)
    ensures Construct(k, a) == Construct(k, b)
  {
    if IsAccepted(k, a) {
      var c, d := Construct(k, a).value, Construct(k, b).value;
      assert c.scalars == d.scalars;
      assert c.sections == d.sections;
    }
  }

  /** A section that fails to load is as good as absent: it resets itself and nothing else. */
  lemma SectionsAreIsolated(k: Fields, data: map<string, Json>, bad: set<string>)
    requires IsSound(k) && forall s <- bad :: Fails(k, data, s)
    ensures Loaded(k, data) == Loaded(k, data - bad)
    ensures forall s <- bad :: s in Loaded(k, data).sections && Loaded(k, data).sections[s] == k.defaultSection(s)
  {
    var a, b := LoaderArgs(k, data), LoaderArgs(k, data - bad);
    forall name ensures name !in bad ==> LoaderArg(k, data, name) == LoaderArg(k, data - bad, name) {}
    forall s | s in k.sections ensures k.coerce(s, Lookup(a, s)) == k.coerce(s, Lookup(b, s)) {
      if s in bad {
        assert Lookup(a, s) == Fresh && Lookup(b, s) == Absent;
      }
    }
    SameArgsSameConfig(k, a, b);
  }

  /** Rebuilding a valid configuration from its dictionary changes nothing. */
  lemma RebuildIsIdentity(k: Fields, c: Config)
    requires IsSound(k) && IsValid(k, c)
    ensures Strict(k, AsDict(k, c)) == Some(c)
  {
    var args := Plain(k, AsDict(k, c));
    forall s | s in k.sections ensures Lookup(args, s) == Given(Obj(c.sections[s])) {}
    forall n | n in k.scalars ensures Lookup(args, n) == Given(c.scalars[n]) {}
    var r := Construct(k, args).value;
    assert r.scalars == c.scalars;
    assert r.sections == c.sections;
  }

  /**
   * Whatever the strict write path accepts is loaded without resetting a section or the whole configuration,
   * and differs from the strict reading only where the loader softens a scalar.
   */
  lemma WhatIsAcceptedLoads(k: Fields, data: map<string, Json>)
    requires IsSound(k) && Strict(k, data).Some?
    ensures !FallsBack(k, data) && forall s <- k.sections :: !Fails(k, data, s)
    ensures var strict, loaded := Strict(k, data).value, Loaded(k, data);
      && loaded.sections == strict.sections
      && loaded.scalars == map n <- k.scalars :: Reread(k, n, strict.scalars[n])
  {
    var strict, soft := Plain(k, data), LoaderArgs(k, data);
    forall s | s in k.sections ensures Lookup(soft, s) == Lookup(strict, s) && !Fails(k, data, s) {
      assert k.coerce(s, Lookup(strict, s)).Some?;
    }
    forall n | n in k.scalars ensures ScalarOf(k, n, Lookup(soft, n)) == Reread(k, n, ScalarOf(k, n, Lookup(strict, n))) {}
    assert IsAccepted(k, soft);
    assert Loaded(k, data).sections == Strict(k, data).value.sections;
  }

  lemma LoadedIsSoftened(k: Fields, data: map<string, Json>, n: string)
    requires IsSound(k) && n in k.scalars
    ensures Reread(k, n, Loaded(k, data).scalars[n]) == Loaded(k, data).scalars[n]
  {
    var args := LoaderArgs(k, data);
    if n in data {
      assert ScalarOf(k, n, Lookup(args, n)) == Reread(k, n, data[n]);
    } else {
      assert ScalarOf(k, n, Lookup(args, n)) == k.default(n);
    }
  }

  /** Loading what the loader produced changes nothing. */
  lemma LoadingIsIdempotent(k: Fields, data: map<string, Json>)
    requires IsSound(k)
    ensures var c := Loaded(k, data); IsValid(k, c) && Loaded(k, AsDict(k, c)) == c
  {
    var c := Loaded(k, data);
    LoaderIsAlwaysValid(k, data);
    RebuildIsIdentity(k, c);
    WhatIsAcceptedLoads(k, AsDict(k, c));
    forall n | n in k.scalars ensures Reread(k, n, c.scalars[n]) == c.scalars[n] {
      LoadedIsSoftened(k, data, n);
    }
    assert Loaded(k, AsDict(k, c)).scalars == c.scalars;
  }

  /** What the loader makes of one section, whether or not the rest of the configuration survives. */
  lemma LoadedSection(k: Fields, data: map<string, Json>, s: string)
    requires IsSound(k) && s in k.sections
    ensures s in Loaded(k, data).sections
    ensures Loaded(k, data).sections[s] ==
      var r := k.coerce(s, if s in data then Given(data[s]) else Absent);
      if FallsBack(k, data) || r.None? then k.defaultSection(s) else r.value
  {
    if !FallsBack(k, data) {
      assert Lookup(LoaderArgs(k, data), s) == LoaderArg(k, data, s);
    }
  }

  /** Replacing one scalar of a dictionary and rebuilding replaces that scalar alone. */
  lemma OverrideIsLocal(k: Fields, c: Config, n: string, v: Json)
    requires IsSound(k) && IsValid(k, c) && n in k.scalars && k.checks(n, v)
    ensures var next := c.(scalars := c.scalars[n := v]);
      IsValid(k, next) && Strict(k, AsDict(k, c)[n := v]) == Some(next)
  {
    var next := c.(scalars := c.scalars[n := v]);
    assert IsValid(k, next);
    RebuildIsIdentity(k, next);
    assert AsDict(k, next) == AsDict(k, c)[n := v];
  }

  /** An override by way of the dictionary; a rejected one is ignored. */
  function Overridden(k: Fields, c: Config, n: string, v: Option<Json>): Config
    requires IsValid(k, c)
  {
    if v.None? then c
    else
      var r := Strict(k, AsDict(k, c)[n := v.value]);
      if r.Some? then r.value else c
  }

  lemma OverriddenIsLocal(k: Fields, c: Config, n: string, v: Option<Json>)
    requires IsSound(k) && IsValid(k, c) && n in k.scalars && (v.Some? ==> k.checks(n, v.value))
    ensures Overridden(k, c, n, v) == if v.Some? then c.(scalars := c.scalars[n := v.value]) else c
    ensures IsValid(k, Overridden(k, c, n, v))
  {
    if v.Some? {
      OverrideIsLocal(k, c, n, v.value);
    }
  }

  /** Arguments gathered key by key are the loader's arguments. */
  lemma GatheredArgs(k: Fields, data: map<string, Json>, kwargs: map<string, Arg>)
    requires forall name :: Lookup(kwargs, name) == LoaderArg(k, data, name)
    requires forall name <- kwargs :: !kwargs[name].Absent?
    ensures kwargs == LoaderArgs(k, data)
  {
    forall name ensures name in kwargs <==> name in LoaderArgs(k, data) {
      assert Lookup(kwargs, name) == LoaderArg(k, data, name);
    }
  }

  /** The whole configuration falls back exactly if some scalar of the file fails its check after softening. */
  lemma FallsBackIff(k: Fields, data: map<string, Json>)
    requires IsSound(k)
    ensures FallsBack(k, data) <==> exists n <- k.scalars :: n in data && !k.checks(n, Reread(k, n, data[n]))
  {
    var args := LoaderArgs(k, data);
    forall n | n in k.scalars
      ensures ScalarOf(k, n, Lookup(args, n)) == if n in data then Reread(k, n, data[n]) else k.default(n)
    {
      assert Lookup(args, n) == LoaderArg(k, data, n);
    }
    forall s | s in k.sections ensures k.coerce(s, Lookup(args, s)).Some? {
      assert Lookup(args, s) == LoaderArg(k, data, s);
    }
  }
}
