/** What a refresh leaves behind, and that a following check needs no provider. */
module CacheTheorems {
  import opened FileLimits
  import opened Values
  import opened FileCheck
  import opened FileCheckTheorems
  import opened FileCheckRun
  import opened TokenCache
  import opened CacheRefresh

  predicate Drops(route: Route) {
    route.Local? || route.Direct? || route.Screened?
  }

  lemma {:induction false} DroppedAt(w: World, r: Routes, cands: seq<string>, entries: map<string, Entry>, key: string)
    ensures Lookup(Dropped(w, r, cands, entries), key) ==
            if exists p <- cands :: w.tree.key(p) == key && Drops(r(p)) then None else Lookup(entries, key)
  {
    if cands != [] {
      var n := |cands| - 1;
      DroppedAt(w, r, cands[..n], entries, key);
      assert cands == cands[..n] + [cands[n]];
    }
  }

  lemma {:induction false} RefusedRoutes(r: Routes, cands: seq<string>)
    ensures SortRefusals(r, cands) == [] <==> forall p <- cands :: !r(p).NoLocal? && !r(p).NoTarget?
  {
    if cands != [] {
      var n := |cands| - 1;
      RefusedRoutes(r, cands[..n]);
      assert cands == cands[..n] + [cands[n]];
      assert RefusalOf(r(cands[n]), cands[n]) == [] <==> !r(cands[n]).NoLocal? && !r(cands[n]).NoTarget?;
    }
  }

  lemma {:induction false} RecordAllKeeps(w: World, results: map<string, Measured>, asked: seq<Asked>, st: Recording, key: string)
    requires forall a <- asked :: w.tree.key(a.0) != key
    ensures Lookup(RecordAll(w, results, asked, st).entries, key) == Lookup(st.entries, key)
  {
    if asked != [] { RecordAllKeeps(w, results, asked[..|asked| - 1], st, key); }
  }

  lemma {:induction false} RecordAllSets(w: World, results: map<string, Measured>, asked: seq<Asked>, st: Recording, a: Asked)
    requires a in asked && RecordOf(w, results, a).0.Some?
    requires forall b <- asked | w.tree.key(b.0) == w.tree.key(a.0) :: b == a
    ensures Lookup(RecordAll(w, results, asked, st).entries, w.tree.key(a.0)) == RecordOf(w, results, a).0
  {
    var n := |asked| - 1;
    assert asked == asked[..n] + [asked[n]];
    if asked[n] != a {
      RecordAllSets(w, results, asked[..n], st, a);
    }
  }

  lemma {:induction false} RecordAllAccepts(w: World, results: map<string, Measured>, asked: seq<Asked>, st: Recording)
    ensures RecordAll(w, results, asked, st).refusals == [] <==>
            st.refusals == [] && forall a <- asked :: RecordOf(w, results, a).0.Some?
  {
    if asked != [] {
      var n := |asked| - 1;
      RecordAllAccepts(w, results, asked[..n], st);
      assert asked == asked[..n] + [asked[n]];
    }
  }

  lemma {:induction false} PairsMembers(paths: seq<string>, chain: seq<string>, a: Asked)
    ensures a in Pairs(paths, chain) <==> a.1 == chain && a.0 in paths
  {
    if paths != [] {
      var n := |paths| - 1;
      PairsMembers(paths[..n], chain, a);
      assert paths == paths[..n] + [paths[n]];
    }
  }

  lemma GroupPairs(r: Routes, cands: seq<string>, g: Groups, chain: seq<string>, a: Asked)
    requires Grouped(r, cands, true, g) && chain in g.paths
    ensures a in Pairs(g.paths[chain], chain) <==> a.1 == chain && a.0 in cands && InGroup(r(a.0), chain, true)
  {
    PairsMembers(g.paths[chain], chain, a);
    GroupMembers(r, cands, chain, true, a.0);
  }

  lemma {:induction false} FlatMembers(r: Routes, cands: seq<string>, g: Groups, n: nat, a: Asked)
    requires Grouped(r, cands, true, g) && n <= |g.order|
    ensures a in Flat(g, n) <==> a.1 in g.order[..n] && a.0 in cands && InGroup(r(a.0), a.1, true)
  {
    if n > 0 {
      var chain := g.order[n - 1];
      assert g.order[..n] == g.order[..n - 1] + [chain] && chain in g.order;
      FlatMembers(r, cands, g, n - 1, a);
      GroupPairs(r, cands, g, chain, a);
    }
  }

  lemma AskedAreProbes(r: Routes, cands: seq<string>, a: Asked)
    ensures var g := LiveGroups(r, cands);
            a in Flat(g, |g.order|) <==> a.0 in cands && r(a.0).Probe? && r(a.0).chain == a.1
  {
    var g := LiveGroups(r, cands);
    FlatMembers(r, cands, g, |g.order|, a);
    GroupMembers(r, cands, a.1, true, a.0);
    assert g.order[..|g.order|] == g.order;
  }

  // ----- What is recorded -----

  /** Different candidates have different keys. */
  ghost predicate DistinctKeys(w: World, cands: seq<string>) {
    forall p <- cands, q <- cands | w.tree.key(p) == w.tree.key(q) :: p == q
  }

  /** The provider's answer for a file, in the batch it is asked in. */
  function ProviderAnswer(w: World, r: Routes, cands: seq<string>, p: string): Option<Measured> {
    if r(p).Probe? then Lookup(w.count(Group(r, cands, r(p).chain, true), r(p).chain), p) else None
  }

  /** The entry records this answer for these bytes under a method that could have given it. */
  predicate Records(w: World, r: Routes, cands: seq<string>, p: string, e: Entry) {
    var answer := ProviderAnswer(w, r, cands, p);
    && r(p).Probe? && answer.Some?
    && answer.value.family in ProviderFamilies(r(p).chain)
    && w.tree.digest(p) == Some(e.sha256)
    && e.via in r(p).chain && FamilyOf(e.via) == Some(e.family)
    && e.family == answer.value.family && e.tokens == Int(answer.value.tokens)
  }

  lemma RecordOfRecords(w: World, r: Routes, cands: seq<string>, p: string)
    requires Obedient(w.count) && p in cands && r(p).Probe?
    ensures var g := LiveGroups(r, cands);
            var found := RecordOf(w, Counted(w.count, g, |g.order|, map[]), (p, r(p).chain)).0;
            found.Some? ==> Records(w, r, cands, p, found.value)
  {
    var g := LiveGroups(r, cands);
    CountedAnswers(r, cands, true, g, w.count, map[], p, r(p).chain);
  }

  /** A refresh that is not refused drops and records exactly what the routes say. */
  lemma RecordingsAre(w: World, r: Routes, cands: seq<string>, existing: map<string, Entry>)
    requires Obedient(w.count) && DistinctKeys(w, cands) && Recordings(w, r, cands, existing).refusals == []
    ensures var entries := Recordings(w, r, cands, existing).entries;
            && (forall p <- cands :: !r(p).NoLocal? && !r(p).NoTarget?)
            && (forall p <- cands | Drops(r(p)) :: w.tree.key(p) !in entries)
            && (forall p <- cands | r(p).Probe? :: w.tree.key(p) in entries && Records(w, r, cands, p, entries[w.tree.key(p)]))
            && (forall key | forall p <- cands :: w.tree.key(p) != key :: Lookup(entries, key) == Lookup(existing, key))
  {
    var g := LiveGroups(r, cands);
    var results, asked := Counted(w.count, g, |g.order|, map[]), Flat(g, |g.order|);
    var st := Recording(Dropped(w, r, cands, existing), SortRefusals(r, cands), 0);
    var entries := Recordings(w, r, cands, existing).entries;
    RecordAllAccepts(w, results, asked, st);
    RefusedRoutes(r, cands);
    forall a ensures a in asked <==> a.0 in cands && r(a.0).Probe? && r(a.0).chain == a.1 { AskedAreProbes(r, cands, a); }
    forall p <- cands | Drops(r(p)) ensures w.tree.key(p) !in entries {
      RecordAllKeeps(w, results, asked, st, w.tree.key(p));
      DroppedAt(w, r, cands, existing, w.tree.key(p));
    }
    forall p <- cands | r(p).Probe?
      ensures w.tree.key(p) in entries && Records(w, r, cands, p, entries[w.tree.key(p)])
    {
      var a := (p, r(p).chain);
      assert a in asked;
      RecordAllSets(w, results, asked, st, a);
      RecordOfRecords(w, r, cands, p);
    }
    forall key | forall p <- cands :: w.tree.key(p) != key ensures Lookup(entries, key) == Lookup(existing, key) {
      RecordAllKeeps(w, results, asked, st, key);
      DroppedAt(w, r, cands, existing, key);
    }
  }

  // ----- A refresh, and a check after it -----

  lemma {:induction false} RefreshableAre(w: World, files: seq<string>)
    ensures forall p :: p in Refreshable(w, files) <==>
              p in files && w.tree.exists_(p) && IsWhitelisted(w.policy, p) && GetLimits(w.policy, p).Some?
  {
    if files != [] {
      var n := |files| - 1;
      RefreshableAre(w, files[..n]);
      assert files == files[..n] + [files[n]];
    }
  }

  function RefreshRoutes(w: World, files: seq<string>): Routes {
    FreshRoutes(w, w.count(Refreshable(w, files), [LOCAL_METHOD]))
  }

  lemma FreshRouteKinds(w: World, locals: map<string, Measured>, p: string)
    requires GetLimits(w.policy, p).Some?
    ensures !FreshRoutes(w, locals)(p).Unlimited? && !FreshRoutes(w, locals)(p).Cached?
  {}

  lemma ProvidersAreNotLocal(methods: seq<string>, family: string)
    requires family in ProviderFamilies(methods)
    ensures family in PROVIDER_FAMILIES && family != TIKTOKEN
  {}

  /** Every recorded answer comes from a provider's tokenizer, never from the local fallback. */
  lemma RefreshRecordsProviders(w: World, files: seq<string>, file: Stored, replaceAll: bool)
    requires Obedient(w.count) && DistinctKeys(w, Refreshable(w, files))
    requires RefreshOutcome(w, files, file, replaceAll).Written?
    ensures var entries, cands, r := RefreshOutcome(w, files, file, replaceAll).entries, Refreshable(w, files), RefreshRoutes(w, files);
            && (forall p <- cands | r(p).Probe? ::
                  w.tree.key(p) in entries && Records(w, r, cands, p, entries[w.tree.key(p)])
                  && entries[w.tree.key(p)].family in PROVIDER_FAMILIES && entries[w.tree.key(p)].family != TIKTOKEN)
            && (forall p <- cands | !r(p).Probe? :: Drops(r(p)) && w.tree.key(p) !in entries)
  {
    var cands, r := Refreshable(w, files), RefreshRoutes(w, files);
    RecordingsAre(w, r, cands, if replaceAll then map[] else Load(file).entries);
    RefreshableAre(w, files);
    var locals := w.count(cands, [LOCAL_METHOD]);
    forall p <- cands ensures !r(p).Unlimited? && !r(p).Cached? { FreshRouteKinds(w, locals, p); }
    forall p <- cands | r(p).Probe? ensures ProviderAnswer(w, r, cands, p).value.family in PROVIDER_FAMILIES - {TIKTOKEN} {
      ProvidersAreNotLocal(r(p).chain, ProviderAnswer(w, r, cands, p).value.family);
    }
  }

  /** A refresh that does not replace everything leaves the entries of all other files alone. */
  lemma RefreshKeepsTheRest(w: World, files: seq<string>, file: Stored, key: string)
    requires Obedient(w.count) && DistinctKeys(w, Refreshable(w, files))
    requires RefreshOutcome(w, files, file, false).Written? && Load(file).Entries?
    requires forall p <- Refreshable(w, files) :: w.tree.key(p) != key
    ensures Lookup(RefreshOutcome(w, files, file, false).entries, key) == Lookup(Load(file).entries, key)
  {
    RecordingsAre(w, RefreshRoutes(w, files), Refreshable(w, files), Load(file).entries);
  }

  /** The check sees the local counts the refresh saw. */
  predicate SameLocals(w: World, refreshed: seq<string>, checked: seq<string>) {
    forall p <- checked :: Lookup(w.count(checked, [LOCAL_METHOD]), p) == Lookup(w.count(refreshed, [LOCAL_METHOD]), p)
  }

  lemma RecordedIsCurrent(w: World, entries: map<string, Entry>, locals: map<string, Measured>, r: Routes, cands: seq<string>, p: string)
    requires RouteOf(w.(cache := None), locals, p).Probe? && r(p) == RouteOf(w.(cache := None), locals, p)
    requires w.tree.key(p) in entries && Records(w, r, cands, p, entries[w.tree.key(p)])
    ensures var route := RouteOf(w.(cache := Some(entries)), locals, p);
            route.Cached? && route.m.tokens == ProviderAnswer(w, r, cands, p).value.tokens
            && route.m.family == ProviderAnswer(w, r, cands, p).value.family
  {}

  lemma CacheOnlyMattersToProbes(w: World, entries: map<string, Entry>, a: map<string, Measured>, b: map<string, Measured>, p: string)
    requires Lookup(a, p) == Lookup(b, p)
    ensures var bare := RouteOf(w.(cache := None), b, p);
            !bare.Probe? ==> RouteOf(w.(cache := Some(entries)), a, p) == bare
    ensures RouteOf(w.(cache := Some(entries)), a, p) == RouteOf(w.(cache := Some(entries)), b, p)
  {}

  /**
    After a refresh of distinct files, a check of them with the written entries asks no
    provider: each file above its screen is judged by the very count recorded for it.
  */
  lemma CheckAfterRefresh(w: World, files: seq<string>, file: Stored, replaceAll: bool, p: string)
    requires Obedient(w.count) && DistinctKeys(w, Refreshable(w, files))
    requires RefreshOutcome(w, files, file, replaceAll).Written?
    requires var after := w.(cache := Some(RefreshOutcome(w, files, file, replaceAll).entries));
             SameLocals(w, Refreshable(w, files), Candidates(after, files)) && p in Candidates(after, files)
    ensures var after := w.(cache := Some(RefreshOutcome(w, files, file, replaceAll).entries));
            var route, r := RoutesOf(after, files)(p), RefreshRoutes(w, files);
            && !route.Probe?
            && (r(p).Probe? ==> route.Cached? && ProviderAnswer(w, r, Refreshable(w, files), p).Some?
                                && route.m.tokens == ProviderAnswer(w, r, Refreshable(w, files), p).value.tokens
                                && route.m.family == ProviderAnswer(w, r, Refreshable(w, files), p).value.family)
  {
    var entries := RefreshOutcome(w, files, file, replaceAll).entries;
    var after, cands, r := w.(cache := Some(entries)), Refreshable(w, files), RefreshRoutes(w, files);
    CandidatesExist(after, files, p);
    RefreshableAre(w, files);
    RefreshRecordsProviders(w, files, file, replaceAll);
    var refreshed := w.count(cands, [LOCAL_METHOD]);
    CacheOnlyMattersToProbes(w, entries, Locals(after, files), refreshed, p);
    if r(p).Probe? { RecordedIsCurrent(w, entries, refreshed, r, cands, p); }
  }

  lemma {:induction false} CandidatesExist(w: World, files: seq<string>, p: string)
    requires p in Candidates(w, files)
    ensures p in files && IsCandidate(w, p)
  {
    var n := |files| - 1;
    if p in Candidates(w, files[..n]) { CandidatesExist(w, files[..n], p); }
    assert files == files[..n] + [files[n]];
  }

  // ----- What is written can be read -----

  ghost predicate Sane(w: World) {
    && (forall paths, chain :: forall p <- w.count(paths, chain) :: w.count(paths, chain)[p].tokens >= 0)
    && (forall p :: w.tree.digest(p).Some? ==> IsDigest(w.tree.digest(p).value))
  }

  ghost predicate AllValid(entries: map<string, Entry>) {
    forall key <- entries :: ValidEntry(entries[key])
  }

  lemma {:induction false} DroppedValid(w: World, r: Routes, cands: seq<string>, entries: map<string, Entry>)
    requires AllValid(entries)
    ensures AllValid(Dropped(w, r, cands, entries))
  {
    if cands != [] { DroppedValid(w, r, cands[..|cands| - 1], entries); }
  }

  ghost predicate NonNegative(results: map<string, Measured>) {
    forall p <- results :: results[p].tokens >= 0
  }

  lemma {:induction false} CountedNonNegative(w: World, g: Groups, n: nat)
    requires Sane(w) && n <= |g.order| && forall chain <- g.order :: chain in g.paths
    ensures NonNegative(Counted(w.count, g, n, map[]))
  {
    if n > 0 { CountedNonNegative(w, g, n - 1); }
  }

  lemma RecordIsValid(w: World, results: map<string, Measured>, a: Asked)
    requires Sane(w) && NonNegative(results)
    ensures RecordOf(w, results, a).0.Some? ==> ValidEntry(RecordOf(w, results, a).0.value)
  {
    var answer := Lookup(results, a.0);
    if answer.Some? && answer.value.family in ProviderFamilies(a.1) {
      ProvidersAreNotLocal(a.1, answer.value.family);
      assert FamilyOf("") == None;
    }
  }

  lemma {:induction false} RecordAllValid(w: World, results: map<string, Measured>, asked: seq<Asked>, st: Recording)
    requires Sane(w) && NonNegative(results) && AllValid(st.entries)
    ensures AllValid(RecordAll(w, results, asked, st).entries)
  {
    if asked != [] {
      RecordAllValid(w, results, asked[..|asked| - 1], st);
      RecordIsValid(w, results, asked[|asked| - 1]);
    }
  }

  lemma RecordingsValid(w: World, r: Routes, cands: seq<string>, existing: map<string, Entry>)
    requires Sane(w) && AllValid(existing)
    ensures AllValid(Recordings(w, r, cands, existing).entries)
  {
    var g := LiveGroups(r, cands);
    DroppedValid(w, r, cands, existing);
    CountedNonNegative(w, g, |g.order|);
    RecordAllValid(w, Counted(w.count, g, |g.order|, map[]), Flat(g, |g.order|),
                   Recording(Dropped(w, r, cands, existing), SortRefusals(r, cands), 0));
  }

  lemma WrittenIsRecorded(w: World, files: seq<string>, file: Stored, replaceAll: bool)
    requires RefreshOutcome(w, files, file, replaceAll).Written?
    ensures !Load(file).Rejected?
    ensures RefreshOutcome(w, files, file, replaceAll).entries ==
      Recordings(w, RefreshRoutes(w, files), Refreshable(w, files),
        if replaceAll then map[] else Load(file).entries).entries
  {}

  lemma WrittenIsValid(w: World, files: seq<string>, file: Stored, replaceAll: bool)
    requires Sane(w) && RefreshOutcome(w, files, file, replaceAll).Written?
    ensures AllValid(RefreshOutcome(w, files, file, replaceAll).entries)
  {
    WrittenIsRecorded(w, files, file, replaceAll);
    LoadedAreValid(file);
    RecordingsValid(w, RefreshRoutes(w, files), Refreshable(w, files), if replaceAll then map[] else Load(file).entries);
  }

  /** Loading what a refresh wrote accepts it and gives back every entry. */
  lemma WrittenCacheLoads(w: World, files: seq<string>, file: Stored, replaceAll: bool)
    requires Sane(w) && RefreshOutcome(w, files, file, replaceAll).Written?
    ensures var entries := RefreshOutcome(w, files, file, replaceAll).entries;
            Load(Holding(Payload(entries))) == Entries(entries)
  {
    WrittenIsValid(w, files, file, replaceAll);
    CacheRoundTrip(RefreshOutcome(w, files, file, replaceAll).entries);
  }

  lemma CachedIsClearIff(w: World, r: Routes, cands: seq<string>, p: string)
    requires r(p).Cached?
    ensures Clear(w, r, cands, p) <==> Within(LimitsOf(w, p), r(p).m)
  {
    OverLimitsEmpty(LimitsOf(w, p), r(p).m);
  }

  /** A candidate after the refresh: what was asked is judged by the recorded answer, the rest as before. */
  predicate Passes(w: World, after: World, files: seq<string>, p: string) {
    var r, asked := RefreshRoutes(w, files), Refreshable(w, files);
    if r(p).Probe? then
      ProviderAnswer(w, r, asked, p).Some? && Within(LimitsOf(w, p), ProviderAnswer(w, r, asked, p).value)
    else Clear(after, RoutesOf(after, files), Candidates(after, files), p)
  }

  lemma PassesIffClear(w: World, files: seq<string>, file: Stored, replaceAll: bool, p: string)
    requires Obedient(w.count) && DistinctKeys(w, Refreshable(w, files))
    requires RefreshOutcome(w, files, file, replaceAll).Written?
    requires var after := w.(cache := Some(RefreshOutcome(w, files, file, replaceAll).entries));
             SameLocals(w, Refreshable(w, files), Candidates(after, files)) && p in Candidates(after, files)
    ensures var after := w.(cache := Some(RefreshOutcome(w, files, file, replaceAll).entries));
            && !RoutesOf(after, files)(p).Probe?
            && (Clear(after, RoutesOf(after, files), Candidates(after, files), p) <==> Passes(w, after, files, p))
  {
    var after := w.(cache := Some(RefreshOutcome(w, files, file, replaceAll).entries));
    CheckAfterRefresh(w, files, file, replaceAll, p);
    if RefreshRoutes(w, files)(p).Probe? {
      CachedIsClearIff(after, RoutesOf(after, files), Candidates(after, files), p);
    }
  }

  /**
    A refresh, the file it leaves, and a check with what is loaded from it: the load gives back every entry, no
    candidate is probed, and the check is error-free exactly if every file meets its line limit and every candidate
    that the refresh asked about has a recorded answer within its maximum.
  */
  lemma RefreshLoadCheck(w: World, files: seq<string>, file: Stored, replaceAll: bool, left: Stored)
    requires Obedient(w.count) && Sane(w) && DistinctKeys(w, Refreshable(w, files))
    requires RefreshOutcome(w, files, file, replaceAll).Written?
    requires left == Holding(Payload(RefreshOutcome(w, files, file, replaceAll).entries))
    requires Load(left).Entries? ==>
               SameLocals(w, Refreshable(w, files), Candidates(w.(cache := Some(Load(left).entries)), files))
    ensures Load(left) == Entries(RefreshOutcome(w, files, file, replaceAll).entries)
    ensures var after := w.(cache := Some(Load(left).entries));
            && (forall p <- Candidates(after, files) :: !RoutesOf(after, files)(p).Probe?)
            && (Errors(after, files) == [] <==>
                  && (forall p <- files :: LineErrors(after, p) == [])
                  && (forall p <- Candidates(after, files) :: Passes(w, after, files, p)))
  {
    WrittenCacheLoads(w, files, file, replaceAll);
    var after := w.(cache := Some(Load(left).entries));
    ErrorFreeIsClear(after, files);
    forall p <- Candidates(after, files)
      ensures !RoutesOf(after, files)(p).Probe?
      ensures Clear(after, RoutesOf(after, files), Candidates(after, files), p) <==> Passes(w, after, files, p)
    {
      PassesIffClear(w, files, file, replaceAll, p);
    }
  }
}
