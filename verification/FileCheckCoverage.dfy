/** Which policies leave no count unbounded: the families that a rule must cover with a maximum. */
module FileCheckCoverage {
  import opened FileLimits
  import opened Values
  import opened FileCheck
  import opened FileCheckTheorems

  /** What a chain's answer may carry: a provider family of the chain, or that of the local and fallback counts. */
  predicate MayAnswer(chain: seq<string>, family: string) {
    family == TIKTOKEN || family in ProviderFamilies(chain)
  }

  /** A checkout under this policy whose counters and recorded entries keep their contracts. */
  ghost predicate IsRegular(w: World, p: Policy) {
    && w.policy == p && Obedient(w.count) && (forall path :: w.tree.lines(path) >= 0)
    && (forall paths, chain :: forall q <- w.count(paths, chain) :: MayAnswer(chain, w.count(paths, chain)[q].family))
    && (w.cache.Some? ==> forall key <- w.cache.value :: w.cache.value[key].family in PROVIDER_FAMILIES)
  }

  /** The file passes unscreened although its count is positive and within no configured maximum. */
  predicate Escapes(w: World, files: seq<string>, path: string) {
    var r, cands := RoutesOf(w, files), Candidates(w, files);
    && path in cands && Errors(w, files) == [] && !r(path).Screened?
    && Judged(w, r, cands, path).Some? && !Enforced(LimitsOf(w, path), Judged(w, r, cands, path).value)
  }

  /** The families by which a chain's files can be judged. */
  function JudgingFamilies(chain: seq<string>): set<string> {
    if ProviderFamilies(chain) == {} then {TIKTOKEN} else ProviderFamilies(chain)
  }

  function LineLimit(limits: Limits): int {
    if limits.maxLines.Some? then limits.maxLines.value else DEFAULT_MAX_LINES
  }

  /**
    Each family that can judge has a maximum; or no file can pass, since no file is that short or a provider-backed
    chain has no local threshold to screen by.
  */
  predicate IsCovered(chain: seq<string>, limits: Limits) {
    || (forall family <- JudgingFamilies(chain) :: LimitFor(limits.max, family).Some?)
    || (ProviderFamilies(chain) != {} && ProbeThreshold(limits).None?)
    || LineLimit(limits) < 0
  }

  lemma JudgedByAJudgingFamily(w: World, p: Policy, files: seq<string>, path: string, limits: Limits)
    requires IsRegular(w, p) && GetLimits(p, path) == Some(limits)
    requires Judged(w, RoutesOf(w, files), Candidates(w, files), path).Some?
    ensures var m := Judged(w, RoutesOf(w, files), Candidates(w, files), path).value;
            m.family in JudgingFamilies(Methods(p, limits))
  {
    var chain, r := Methods(p, limits), RoutesOf(w, files);
    assert ProviderFamilies([LOCAL_METHOD]) == {};
    match r(path)
    case Cached(m) =>
      var e := w.cache.value[w.tree.key(path)];
      assert m == CachedMeasurement(w, path, chain, w.cache.value).0.value && e.via in chain;
    case _ =>
  }

  lemma CoveredHoldsAll(w: World, p: Policy, files: seq<string>, path: string, limits: Limits)
    requires IsRegular(w, p) && GetLimits(p, path) == Some(limits) && IsCovered(Methods(p, limits), limits)
    ensures !Escapes(w, files, path)
  {
    if Escapes(w, files, path) {
      var r, cands := RoutesOf(w, files), Candidates(w, files);
      var m := Judged(w, r, cands, path).value;
      ErrorFreeIsClear(w, files);
      CandidatesAre(w, files);
      JudgedByAJudgingFamily(w, p, files, path, limits);
      OverLimitsEmpty(limits, m);
    }
  }

  /** Files without a line, local counts of so many tokens, and one token from every chain that may answer so. */
  function Uncovered(p: Policy, local: int, family: string): World {
    World(p, Tree(q => true, q => 0, q => None, q => q),
      (paths, chain) =>
        if chain == [LOCAL_METHOD] then map q <- paths :: Measured(local, "local", TIKTOKEN)
        else if MayAnswer(chain, family) then map q <- paths :: Measured(1, "counted", family)
        else map[],
      None, note => "")
  }

  lemma UncoveredIsRegular(p: Policy, local: int, family: string)
    ensures IsRegular(Uncovered(p, local, family), p)
  {}

  /** A local count just above the screen. */
  function AboveScreen(limits: Limits): int {
    var screen := ProbeThreshold(limits);
    if screen.Some? && screen.value >= 0 then screen.value + 1 else 1
  }

  lemma UncoveredLocals(w: World, p: Policy, local: int, family: string, path: string, limits: Limits)
    requires IsWhitelisted(p, path) && GetLimits(p, path) == Some(limits) && LineLimit(limits) >= 0
    requires w == Uncovered(p, local, family)
    ensures LineErrors(w, path) == [] && Candidates(w, [path]) == [path]
    ensures Locals(w, [path]) == map[path := Measured(local, "local", TIKTOKEN)]
  {
    assert [path][..0] == [];
    assert LineErrors(w, path) == [];
    assert Candidates(w, [path]) == [path];
  }

  function ExpectedRoute(p: Policy, limits: Limits): Route {
    var chain := Methods(p, limits);
    if ProviderFamilies(chain) != {} then Probe(chain, Disabled)
    else if chain == [LOCAL_METHOD] then Local(Measured(AboveScreen(limits), "local", TIKTOKEN))
    else Direct(chain)
  }

  lemma UncoveredRoute(w: World, p: Policy, locals: map<string, Measured>, path: string, limits: Limits)
    requires w.policy == p && w.cache == None && GetLimits(p, path) == Some(limits)
    requires path in locals && locals[path] == Measured(AboveScreen(limits), "local", TIKTOKEN)
    requires ProviderFamilies(Methods(p, limits)) != {} ==> ProbeThreshold(limits).Some?
    ensures RouteOf(w, locals, path) == ExpectedRoute(p, limits)
  {}

  lemma GroupOfOne(r: Routes, path: string, chain: seq<string>, live: bool)
    requires InGroup(r(path), chain, live)
    ensures Group(r, [path], chain, live) == [path]
  {
    assert [path][..0] == [];
  }

  lemma UncoveredCount(w: World, p: Policy, local: int, r: Routes, path: string, limits: Limits, family: string)
    requires w == Uncovered(p, local, family) && family in JudgingFamilies(Methods(p, limits))
    requires GetLimits(p, path) == Some(limits) && r(path) == ExpectedRoute(p, limits)
    ensures var judged := Judged(w, r, [path], path);
            judged.Some? && judged.value.family == family && judged.value.tokens > 0
  {
    var chain := Methods(p, limits);
    assert ProviderFamilies([LOCAL_METHOD]) == {};
    if !r(path).Local? {
      GroupOfOne(r, path, chain, r(path).Probe?);
      assert Answer(w, r, [path], path) == Some(Measured(1, "counted", family));
    }
  }

  lemma UnboundedIsClear(w: World, r: Routes, path: string, m: Measured)
    requires Judged(w, r, [path], path) == Some(m) && LimitFor(LimitsOf(w, path).max, m.family).None? && m.tokens > 0
    requires w.cache == None && (r(path).Local? || r(path).Direct? || r(path).Probe?)
    ensures Clear(w, r, [path], path) && !Enforced(LimitsOf(w, path), m)
  {}

  /** Some regular checkout lets the file of an uncovered rule escape. */
  lemma UncoveredEscapes(p: Policy, path: string, limits: Limits) returns (w: World)
    requires IsWhitelisted(p, path) && GetLimits(p, path) == Some(limits) && !IsCovered(Methods(p, limits), limits)
    ensures IsRegular(w, p) && Escapes(w, [path], path)
  {
    var chain := Methods(p, limits);
    var family :| family in JudgingFamilies(chain) && LimitFor(limits.max, family).None?;
    var local := AboveScreen(limits);
    w := Uncovered(p, local, family);
    UncoveredIsRegular(p, local, family);
    UncoveredLocals(w, p, local, family, path, limits);
    var r := RoutesOf(w, [path]);
    UncoveredRoute(w, p, Locals(w, [path]), path, limits);
    UncoveredCount(w, p, local, r, path, limits, family);
    UnboundedIsClear(w, r, path, Judged(w, r, [path], path).value);
    ErrorFreeIsClear(w, [path]);
  }

  /**
    No regular checkout lets a file pass unscreened with a count that no maximum bounds exactly if the file's rule
    gives every family that can judge it a maximum, or lets no such file pass.
  */
  lemma NothingEscapesIff(p: Policy, path: string, limits: Limits)
    requires IsWhitelisted(p, path) && GetLimits(p, path) == Some(limits)
    ensures (forall w, files | IsRegular(w, p) :: !Escapes(w, files, path)) <==> IsCovered(Methods(p, limits), limits)
  {
    if IsCovered(Methods(p, limits), limits) {
      forall w, files | IsRegular(w, p) ensures !Escapes(w, files, path) {
        CoveredHoldsAll(w, p, files, path, limits);
      }
    } else {
      var w := UncoveredEscapes(p, path, limits);
      assert Escapes(w, [path], path);
    }
  }
}
