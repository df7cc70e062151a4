/** What an error-free check means, and what cannot influence it. */
module FileCheckTheorems {
  import opened FileLimits
  import opened Values
  import opened FileCheck

  // ----- Reports as collections of per-file findings -----

  lemma TaggedEmpty(path: string, notes: seq<Note>)
    ensures Tagged(path, notes) == [] <==> notes == []
  {}

  lemma {:induction false} EachEmpty(paths: seq<string>, notes: string -> seq<Note>)
    ensures Each(paths, notes) == [] <==> forall p <- paths :: notes(p) == []
  {
    if paths != [] {
      var n := |paths| - 1;
      EachEmpty(paths[..n], notes);
      TaggedEmpty(paths[n], notes(paths[n]));
      assert paths == paths[..n] + [paths[n]];
    }
  }

  lemma {:induction false} LineReportEmpty(w: World, files: seq<string>)
    ensures LineReport(w, files) == [] <==> forall p <- files :: LineErrors(w, p) == []
  {
    if files != [] {
      var n := |files| - 1;
      LineReportEmpty(w, files[..n]);
      assert files == files[..n] + [files[n]];
    }
  }

  lemma {:induction false} VerdictsEmpty(w: World, v: Verdict, cands: seq<string>, n: nat, errors: seq<Message>)
    requires n <= |cands|
    ensures WithVerdicts(w, v, cands, n, errors) == [] <==> errors == [] && forall p <- cands[..n] :: v(p, false) == []
  {
    if n > 0 {
      VerdictsEmpty(w, v, cands, n - 1, errors);
      var before, p := WithVerdicts(w, v, cands, n - 1, errors), cands[n - 1];
      assert before == [] ==> !Mentioned(w, before, p);
      TaggedEmpty(p, v(p, Mentioned(w, before, p)));
      assert cands[..n] == cands[..n - 1] + [p];
    }
  }

  // ----- No silent pass -----

  predicate Within(limits: Limits, m: Measured) {
    var max := LimitFor(limits.max, m.family);
    max.Some? ==> m.tokens <= max.value
  }

  function Provided(w: World, files: seq<string>, p: string): Option<Measured> {
    Answer(w, RoutesOf(w, files), Candidates(w, files), p)
  }

  /**
    A candidate passes on its local count alone, at or below the conservative screen, or on
    a measurement within its family's maximum: the local one for a local-only chain, the
    chain's own for a chain without providers, otherwise the recorded one if counts are
    recorded at all and a provider's live answer if they are not.
  */
  predicate Justified(w: World, files: seq<string>, p: string) {
    var limits, locals := LimitsOf(w, p), Locals(w, files);
    var methods := Methods(w.policy, limits);
    && p in locals
    && if ProviderFamilies(methods) == {} then
         if methods == [LOCAL_METHOD] then Within(limits, locals[p])
         else Provided(w, files, p).Some? && Within(limits, Provided(w, files, p).value)
       else
         && ProbeThreshold(limits).Some?
         && (|| locals[p].tokens <= ProbeThreshold(limits).value
             || (w.cache.Some? &&
                 var (m, state) := CachedMeasurement(w, p, methods, w.cache.value);
                 state == Current && Within(limits, m.value))
             || (w.cache.None? && Provided(w, files, p).Some? &&
                 Authoritative(w, p, Provided(w, files, p).value) && Within(limits, Provided(w, files, p).value)))
  }

  predicate Clear(w: World, r: Routes, cands: seq<string>, p: string) {
    RouteNotes(r, p) == [] && ProbeNotes(w, r, cands, p) == [] && VerdictNotes(w, r, cands, p, false) == []
  }

  lemma OverLimitsEmpty(limits: Limits, m: Measured)
    ensures OverLimits(limits, m) == [] <==> Within(limits, m)
  {}

  lemma ClearIsJustified(w: World, files: seq<string>, p: string)
    requires GetLimits(w.policy, p).Some?
    ensures Clear(w, RoutesOf(w, files), Candidates(w, files), p) <==> Justified(w, files, p)
  {
    var r, cands := RoutesOf(w, files), Candidates(w, files);
    var judged := Judged(w, r, cands, p);
    if judged.Some? { OverLimitsEmpty(LimitsOf(w, p), judged.value); }
    if Provided(w, files, p).Some? { OverLimitsEmpty(LimitsOf(w, p), Provided(w, files, p).value); }
  }

  lemma {:induction false} CandidatesAre(w: World, files: seq<string>)
    ensures forall p :: p in Candidates(w, files) <==> p in files && IsCandidate(w, p)
  {
    if files != [] {
      var n := |files| - 1;
      CandidatesAre(w, files[..n]);
      assert files == files[..n] + [files[n]];
    }
  }

  lemma PreliminaryEmpty(w: World, files: seq<string>)
    ensures var cands, r := Candidates(w, files), RoutesOf(w, files);
            Preliminary(w, files) == [] <==>
              && (forall p <- files :: LineErrors(w, p) == [])
              && (forall p <- cands :: RouteNotes(r, p) == [])
              && (forall p <- cands :: ProbeNotes(w, r, cands, p) == [])
  {
    var cands, r := Candidates(w, files), RoutesOf(w, files);
    LineReportEmpty(w, files);
    EachEmpty(cands, p => RouteNotes(r, p));
    EachEmpty(cands, p => ProbeNotes(w, r, cands, p));
  }

  lemma ErrorFreeIsClear(w: World, files: seq<string>)
    ensures Errors(w, files) == [] <==>
            && (forall p <- files :: LineErrors(w, p) == [])
            && (forall p <- Candidates(w, files) :: Clear(w, RoutesOf(w, files), Candidates(w, files), p))
  {
    var cands := Candidates(w, files);
    LineReportEmpty(w, files);
    PreliminaryEmpty(w, files);
    VerdictsEmpty(w, VerdictOf(w, files), cands, |cands|, Preliminary(w, files));
    assert cands[..|cands|] == cands;
    if cands != [] && Locals(w, files) == map[] {
      CandidatesAre(w, files);
      var p := cands[0];
      assert p in cands && IsCandidate(w, p) && RoutesOf(w, files)(p) == NoLocal;
    }
  }

  /** check_files reports no error exactly if every file meets its line limit and every candidate is justified. */
  lemma NoSilentPass(w: World, files: seq<string>)
    ensures Errors(w, files) == [] <==>
            && (forall p <- files :: LineErrors(w, p) == [])
            && (forall p <- Candidates(w, files) :: Justified(w, files, p))
  {
    ErrorFreeIsClear(w, files);
    CandidatesAre(w, files);
    forall p <- Candidates(w, files) { ClearIsJustified(w, files, p); }
  }

  lemma WarningsEmpty(limits: Limits, m: Measured)
    requires Within(limits, m) && Warnings(limits, m) == []
    ensures m.tokens <= 0 || (LimitFor(limits.max, m.family).Some? && m.tokens <= LimitFor(limits.max, m.family).value)
    ensures LimitFor(limits.max, m.family).Some? && LimitFor(limits.target, m.family).Some? ==>
              m.tokens <= LimitFor(limits.target, m.family).value
  {}

  predicate Enforced(limits: Limits, m: Measured) {
    var max := LimitFor(limits.max, m.family);
    m.tokens <= 0 || (max.Some? && m.tokens <= max.value)
  }

  lemma ClearAndUnwarned(w: World, r: Routes, cands: seq<string>, p: string)
    requires Clear(w, r, cands, p) && VerdictWarnings(w, r, cands, p) == [] && !r(p).Unlimited?
    ensures var judged := Judged(w, r, cands, p);
            if judged.None? then r(p).Screened? else Enforced(LimitsOf(w, p), judged.value)
  {
    var judged := Judged(w, r, cands, p);
    if judged.Some? && !r(p).Screened? {
      OverLimitsEmpty(LimitsOf(w, p), judged.value);
      assert Warnings(LimitsOf(w, p), judged.value) == [];
      WarningsEmpty(LimitsOf(w, p), judged.value);
    }
  }

  lemma Unwarned(w: World, files: seq<string>, p: string)
    requires WarningsOf(w, files) == [] && p in Candidates(w, files) && Locals(w, files) != map[]
    ensures VerdictWarnings(w, RoutesOf(w, files), Candidates(w, files), p) == []
  {
    var r, cands := RoutesOf(w, files), Candidates(w, files);
    EachEmpty(cands, p => VerdictWarnings(w, r, cands, p));
  }

  lemma ClearMeansCounted(w: World, files: seq<string>, p: string)
    requires Clear(w, RoutesOf(w, files), Candidates(w, files), p) && GetLimits(w.policy, p).Some?
    ensures p in Locals(w, files) && !RoutesOf(w, files)(p).Unlimited?
  {}

  /**
    A family without a configured maximum passes with a warning only. Without warnings too,
    every candidate cleared the screen or has a count that is empty or within its maximum.
  */
  lemma NoWarningNoExcess(w: World, files: seq<string>, p: string)
    requires Errors(w, files) == [] && WarningsOf(w, files) == [] && p in Candidates(w, files)
    ensures var judged := Judged(w, RoutesOf(w, files), Candidates(w, files), p);
            if judged.None? then RoutesOf(w, files)(p).Screened? else Enforced(LimitsOf(w, p), judged.value)
  {
    ErrorFreeIsClear(w, files);
    CandidatesAre(w, files);
    assert IsCandidate(w, p);
    ClearMeansCounted(w, files, p);
    Unwarned(w, files, p);
    ClearAndUnwarned(w, RoutesOf(w, files), Candidates(w, files), p);
  }

  /**
    Where no error is reported, a candidate's count exceeds every configured limit unnoticed by errors exactly if
    the check warns that its family has no maximum.
  */
  lemma EnforcedIff(w: World, files: seq<string>, p: string)
    requires Errors(w, files) == [] && p in Candidates(w, files)
    ensures var r, cands := RoutesOf(w, files), Candidates(w, files);
            var judged := Judged(w, r, cands, p);
            judged.None? || r(p).Screened? || Enforced(LimitsOf(w, p), judged.value) <==>
              forall note <- VerdictWarnings(w, r, cands, p) :: !note.Unenforced?
  {
    var r, cands := RoutesOf(w, files), Candidates(w, files);
    ErrorFreeIsClear(w, files);
    CandidatesAre(w, files);
    assert IsCandidate(w, p) && Clear(w, r, cands, p);
    ClearMeansCounted(w, files, p);
    if Judged(w, r, cands, p).Some? && !r(p).Screened? {
      WarnsWhenUnenforced(LimitsOf(w, p), Judged(w, r, cands, p).value);
    }
  }

  lemma WarnsWhenUnenforced(limits: Limits, m: Measured)
    requires OverLimits(limits, m) == []
    ensures Enforced(limits, m) <==> forall note <- Warnings(limits, m) :: !note.Unenforced?
  {
    if LimitFor(limits.max, m.family).None? && m.tokens > 0 {
      assert Unenforced(m.family, m.how) in Warnings(limits, m);
    }
  }

  /** One rule that counts locally and sets no maximum; every file has n tokens. */
  function Boundless(n: int): World {
    World(
      Policy([Rule("*", false, Limits(None, Null, Null, Null))], [], Null, (p, q) => true, (j: Json) => ""),
      Tree(p => true, p => 1, p => None, p => p),
      (paths, chain) => map p <- paths :: Measured(n, "local", TIKTOKEN),
      None, note => "")
  }

  /** However many tokens a file has, without a maximum it passes, with a warning only. */
  lemma UnlimitedFamilyPasses(n: int, p: string)
    requires n > 0
    ensures var w, files := Boundless(n), [p];
            && Errors(w, files) == [] && WarningsOf(w, files) == [About(p, Unenforced(TIKTOKEN, "local"))]
            && Judged(w, RoutesOf(w, files), Candidates(w, files), p) == Some(Measured(n, "local", TIKTOKEN))
            && !Enforced(LimitsOf(w, p), Measured(n, "local", TIKTOKEN))
  {
    var w, files := Boundless(n), [p];
    assert files[..0] == [] && LineErrors(w, p) == [];
    assert Candidates(w, files) == [p];
    assert Locals(w, files) == map[p := Measured(n, "local", TIKTOKEN)];
    assert GetLimits(w.policy, p) == Some(Limits(None, Null, Null, Null));
    assert ProviderFamilies(DEFAULT_METHODS) == {};
    assert RoutesOf(w, files)(p) == Local(Measured(n, "local", TIKTOKEN));
    NoSilentPass(w, files);
    var r, cands := RoutesOf(w, files), Candidates(w, files);
    assert VerdictWarnings(w, r, cands, p) == [Unenforced(TIKTOKEN, "local")];
    assert [Unenforced(TIKTOKEN, "local")][1..] == [];
    EachOne(p, p => VerdictWarnings(w, r, cands, p));
  }

  lemma EachOne(p: string, notes: string -> seq<Note>)
    ensures Each([p], notes) == Tagged(p, notes(p))
  {
    assert [p][..0] == [];
  }

  // ----- Provider answers cannot decide -----

  /** The worlds differ in what provider-backed chains are told, and in wording. */
  ghost predicate AgreeButForProviders(w1: World, w2: World) {
    && w1.policy == w2.policy && w1.tree == w2.tree && w1.cache == w2.cache
    && forall paths, chain | ProviderFamilies(chain) == {} :: w1.count(paths, chain) == w2.count(paths, chain)
  }

  lemma {:induction false} SameCandidates(w1: World, w2: World, files: seq<string>)
    requires AgreeButForProviders(w1, w2)
    ensures Candidates(w1, files) == Candidates(w2, files) && Locals(w1, files) == Locals(w2, files)
  {
    if files != [] {
      SameCandidates(w1, w2, files[..|files| - 1]);
    }
  }

  lemma {:induction false} SameGroup(r1: Routes, r2: Routes, paths: seq<string>, chain: seq<string>, live: bool)
    requires forall p <- paths :: r1(p) == r2(p)
    ensures Group(r1, paths, chain, live) == Group(r2, paths, chain, live)
  {
    if paths != [] { SameGroup(r1, r2, paths[..|paths| - 1], chain, live); }
  }

  lemma SameJustified(w1: World, w2: World, files: seq<string>, p: string)
    requires AgreeButForProviders(w1, w2) && w1.cache.Some?
    ensures Justified(w1, files, p) <==> Justified(w2, files, p)
  {
    SameCandidates(w1, w2, files);
    var methods := Methods(w1.policy, LimitsOf(w1, p));
    if ProviderFamilies(methods) == {} { SameProvided(w1, w2, files, p); }
  }

  lemma SameRoute(w1: World, w2: World, files: seq<string>, p: string)
    requires AgreeButForProviders(w1, w2)
    ensures RoutesOf(w1, files)(p) == RoutesOf(w2, files)(p)
    ensures ProviderFamilies(Methods(w1.policy, LimitsOf(w1, p))) == {} ==> !RoutesOf(w1, files)(p).Probe?
    ensures var route := RoutesOf(w1, files)(p);
            route.Direct? ==> ProviderFamilies(route.chain) == {}
  {
    SameCandidates(w1, w2, files);
  }

  lemma SameProvided(w1: World, w2: World, files: seq<string>, p: string)
    requires AgreeButForProviders(w1, w2) && ProviderFamilies(Methods(w1.policy, LimitsOf(w1, p))) == {}
    ensures Provided(w1, files, p) == Provided(w2, files, p)
  {
    var r1, r2 := RoutesOf(w1, files), RoutesOf(w2, files);
    SameCandidates(w1, w2, files);
    forall q ensures r1(q) == r2(q) { SameRoute(w1, w2, files, q); }
    SameRoute(w1, w2, files, p);
    if r1(p).Direct? { SameGroup(r1, r2, Candidates(w1, files), r1(p).chain, false); }
  }

  /** With recorded counts, whether a check passes does not depend on any provider's answer. */
  lemma ProvidersCannotDecide(w1: World, w2: World, files: seq<string>)
    requires AgreeButForProviders(w1, w2) && w1.cache.Some?
    ensures Errors(w1, files) == [] <==> Errors(w2, files) == []
  {
    NoSilentPass(w1, files);
    NoSilentPass(w2, files);
    SameCandidates(w1, w2, files);
    forall p { SameJustified(w1, w2, files, p); }
    forall p ensures LineErrors(w1, p) == LineErrors(w2, p) {}
  }
}
