/** check_files as the program runs it, filling dictionaries and lists in loops. */
module FileCheckRun {
  import opened FileLimits
  import opened Values
  import opened FileCheck

  /** A dictionary of lists that remembers the order in which its keys were first used. */
  datatype Groups = Groups(paths: map<seq<string>, seq<string>>, order: seq<seq<string>>)

  const NO_GROUPS := Groups(map[], [])

  /** setdefault(chain, []).append(path) */
  function Appended(g: Groups, chain: seq<string>, path: string): Groups {
    if chain in g.paths then Groups(g.paths[chain := g.paths[chain] + [path]], g.order)
    else Groups(g.paths[chain := [path]], g.order + [chain])
  }

  datatype Sorting = Sorting(
    measured: map<string, Measured>, direct: Groups, live: Groups,
    states: map<string, CacheState>, pending: set<string>, screened: set<string>)

  const UNSORTED := Sorting(map[], NO_GROUPS, NO_GROUPS, map[], {}, {})

  function Placed(st: Sorting, path: string, route: Route, cached: bool): Sorting {
    match route
    case Local(m) => st.(measured := st.measured[path := m])
    case Cached(m) =>
      st.(measured := st.measured[path := m], states := if cached then st.states[path := Current] else st.states)
    case Direct(chain) => st.(direct := Appended(st.direct, chain, path))
    case Probe(chain, state) =>
      st.(live := Appended(st.live, chain, path), pending := st.pending + {path},
          states := if cached then st.states[path := state] else st.states)
    case Screened => st.(screened := st.screened + {path})
    case _ => st
  }

  function SortAll(r: Routes, cached: bool, cands: seq<string>): Sorting {
    if cands == [] then UNSORTED
    else
      var last := cands[|cands| - 1];
      Placed(SortAll(r, cached, cands[..|cands| - 1]), last, r(last), cached)
  }

  /** dict.update with the counts of one group after another. */
  function Counted(count: Counter, g: Groups, n: nat, base: map<string, Measured>): map<string, Measured>
    requires n <= |g.order| && forall chain <- g.order :: chain in g.paths
  {
    if n == 0 then base
    else Counted(count, g, n - 1, base) + count(g.paths[g.order[n - 1]], g.order[n - 1])
  }

  // ----- What the dictionaries hold -----

  ghost predicate Grouped(r: Routes, seen: seq<string>, live: bool, g: Groups) {
    && (forall chain :: chain in g.paths <==> chain in g.order)
    && (forall chain <- g.paths :: g.paths[chain] == Group(r, seen, chain, live))
    && (forall chain | chain !in g.paths :: Group(r, seen, chain, live) == [])
  }

  lemma GroupGrows(r: Routes, seen: seq<string>, path: string, chain: seq<string>, live: bool)
    ensures Group(r, seen + [path], chain, live) == Group(r, seen, chain, live) + if InGroup(r(path), chain, live) then [path] else []
  {
    assert (seen + [path])[..|seen|] == seen;
  }

  lemma GroupedGrows(r: Routes, seen: seq<string>, path: string, live: bool, g: Groups, chain: seq<string>)
    requires Grouped(r, seen, live, g) && InGroup(r(path), chain, live)
    ensures Grouped(r, seen + [path], live, Appended(g, chain, path))
  {
    var h := Appended(g, chain, path);
    forall c ensures c in h.paths <==> c in h.order {
      assert c in h.order <==> c in g.order || c == chain;
    }
    forall c ensures Group(r, seen + [path], c, live) == if c in h.paths then h.paths[c] else [] {
      GroupGrows(r, seen, path, c, live);
      assert Group(r, seen, c, live) == if c in g.paths then g.paths[c] else [];
    }
  }

  lemma GroupedStays(r: Routes, seen: seq<string>, path: string, live: bool, g: Groups)
    requires Grouped(r, seen, live, g)
    requires forall c :: !InGroup(r(path), c, live)
    ensures Grouped(r, seen + [path], live, g)
  {
    forall c ensures Group(r, seen + [path], c, live) == Group(r, seen, c, live) {
      GroupGrows(r, seen, path, c, live);
    }
  }

  lemma {:induction false} SortAllGroups(r: Routes, cached: bool, cands: seq<string>)
    ensures Grouped(r, cands, false, SortAll(r, cached, cands).direct)
    ensures Grouped(r, cands, true, SortAll(r, cached, cands).live)
  {
    if cands != [] {
      var seen, path := cands[..|cands| - 1], cands[|cands| - 1];
      var st := SortAll(r, cached, seen);
      SortAllGroups(r, cached, seen);
      assert cands == seen + [path];
      match r(path) {
        case Direct(chain) =>
          GroupedGrows(r, seen, path, false, st.direct, chain);
          GroupedStays(r, seen, path, true, st.live);
        case Probe(chain, _) =>
          GroupedGrows(r, seen, path, true, st.live, chain);
          GroupedStays(r, seen, path, false, st.direct);
        case _ =>
          GroupedStays(r, seen, path, true, st.live);
          GroupedStays(r, seen, path, false, st.direct);
      }
    }
  }

  ghost predicate Noted(r: Routes, cached: bool, seen: seq<string>, st: Sorting) {
    && (forall p :: p in st.measured <==> p in seen && (r(p).Local? || r(p).Cached?))
    && (forall p <- st.measured :: st.measured[p] == r(p).m)
    && (forall p :: p in st.pending <==> p in seen && r(p).Probe?)
    && (forall p <- st.pending :: cached ==> p in st.states)
    && (!cached ==> st.states == map[])
    && (forall p <- st.pending | p in st.states :: st.states[p] == r(p).state)
    && (forall p :: p in st.screened <==> p in seen && r(p).Screened?)
  }

  lemma NotedGrows(r: Routes, cached: bool, seen: seq<string>, st: Sorting, path: string)
    requires Noted(r, cached, seen, st)
    ensures Noted(r, cached, seen + [path], Placed(st, path, r(path), cached))
  {}

  lemma {:induction false} SortAllNotes(r: Routes, cached: bool, cands: seq<string>)
    ensures Noted(r, cached, cands, SortAll(r, cached, cands))
  {
    if cands != [] {
      var seen, path := cands[..|cands| - 1], cands[|cands| - 1];
      SortAllNotes(r, cached, seen);
      NotedGrows(r, cached, seen, SortAll(r, cached, seen), path);
      assert cands == seen + [path];
    }
  }

  lemma {:induction false} GroupMembers(r: Routes, paths: seq<string>, chain: seq<string>, live: bool, p: string)
    ensures p in Group(r, paths, chain, live) <==> p in paths && InGroup(r(p), chain, live)
  {
    if paths != [] {
      var seen, last := paths[..|paths| - 1], paths[|paths| - 1];
      GroupMembers(r, seen, chain, live, p);
      assert paths == seen + [last];
    }
  }

  lemma MergedLookup(a: map<string, Measured>, b: map<string, Measured>, p: string)
    ensures Lookup(a + b, p) == if p in b then Some(b[p]) else Lookup(a, p)
  {}

  /** Another group's counts say nothing about a file that is not in it. */
  lemma OtherGroupIsSilent(r: Routes, cands: seq<string>, live: bool, g: Groups, count: Counter, c: seq<string>, p: string)
    requires Grouped(r, cands, live, g) && Obedient(count) && c in g.paths && !InGroup(r(p), c, live)
    ensures p !in count(g.paths[c], c)
  {
    GroupMembers(r, cands, c, live, p);
  }

  /** A file's count is its own group's, whichever groups were counted before or after. */
  lemma {:induction false} CountedAt(r: Routes, cands: seq<string>, live: bool, g: Groups, count: Counter, n: nat,
                                     base: map<string, Measured>, p: string, chain: seq<string>)
    requires Grouped(r, cands, live, g) && Obedient(count) && n <= |g.order|
    requires forall c: seq<string> :: InGroup(r(p), c, live) ==> c == chain
    ensures Lookup(Counted(count, g, n, base), p) ==
              if chain in g.order[..n] && p in count(g.paths[chain], chain) then Some(count(g.paths[chain], chain)[p])
              else Lookup(base, p)
  {
    if n > 0 {
      var c := g.order[n - 1];
      assert g.order[..n] == g.order[..n - 1] + [c] && c in g.order;
      CountedAt(r, cands, live, g, count, n - 1, base, p, chain);
      MergedLookup(Counted(count, g, n - 1, base), count(g.paths[c], c), p);
      if c != chain {
        OtherGroupIsSilent(r, cands, live, g, count, c, p);
      }
    }
  }

  lemma CountedAnswers(r: Routes, cands: seq<string>, live: bool, g: Groups, count: Counter, base: map<string, Measured>,
                       p: string, chain: seq<string>)
    requires Grouped(r, cands, live, g) && Obedient(count) && p in cands && InGroup(r(p), chain, live)
    ensures var own := Lookup(count(Group(r, cands, chain, live), chain), p);
            Lookup(Counted(count, g, |g.order|, base), p) == if own.Some? then own else Lookup(base, p)
  {
    assert g.order[..|g.order|] == g.order;
    CountedAt(r, cands, live, g, count, |g.order|, base, p, chain);
    GroupMembers(r, cands, chain, live, p);
  }

  lemma CountedSpares(r: Routes, cands: seq<string>, live: bool, g: Groups, count: Counter, base: map<string, Measured>, p: string)
    requires Grouped(r, cands, live, g) && Obedient(count)
    requires if live then !r(p).Probe? else !r(p).Direct?
    ensures Lookup(Counted(count, g, |g.order|, base), p) == Lookup(base, p)
  {
    GroupMembers(r, cands, [], live, p);
    CountedAt(r, cands, live, g, count, |g.order|, base, p, []);
    if [] in g.order && p in count(g.paths[[]], []) { assert false; }
  }

  // ----- The loops -----

  lemma EachGrows(paths: seq<string>, n: nat, notes: string -> seq<Note>)
    requires n < |paths|
    ensures Each(paths[..n + 1], notes) == Each(paths[..n], notes) + Tagged(paths[n], notes(paths[n]))
  {
    assert paths[..n + 1][..n] == paths[..n];
  }

  lemma TaggedOne(path: string, note: Note)
    ensures Tagged(path, [note]) == [About(path, note)]
  {
    assert [note][1..] == [];
  }

  method ScreenLines(w: World, files: seq<string>) returns (errors: seq<Message>, cands: seq<string>)
    ensures errors == LineReport(w, files) && cands == Candidates(w, files)
  {
    errors, cands := [], [];
    for i := 0 to |files|
      invariant errors == LineReport(w, files[..i]) && cands == Candidates(w, files[..i])
    {
      var path := files[i];
      assert files[..i + 1][..i] == files[..i];
      var own := LineErrors(w, path);
      errors := errors + own;
      if own == [] && IsWhitelisted(w.policy, path) && GetLimits(w.policy, path).Some? && w.tree.exists_(path) {
        cands := cands + [path];
      }
    }
    assert files[..|files|] == files;
  }

  /** The body of the sorting loop. */
  method SortCandidate(w: World, locals: map<string, Measured>, path: string, before: seq<Message>, placed: Sorting)
    returns (errors: seq<Message>, st: Sorting)
    ensures errors == before + match RouteOf(w, locals, path)
                               case NoLocal => [About(path, LocalUnavailable)]
                               case NoTarget => [About(path, NoLocalTarget)]
                               case _ => []
    ensures st == Placed(placed, path, RouteOf(w, locals, path), w.cache.Some?)
  {
    errors, st := before, placed;
    var limits := GetLimits(w.policy, path);
    if limits.None? { return; }
    var methods := Methods(w.policy, limits.value);
    if path !in locals {
      errors := errors + [About(path, LocalUnavailable)];
      return;
    }
    if ProviderFamilies(methods) == {} {
      if methods == [LOCAL_METHOD] {
        st := st.(measured := st.measured[path := locals[path]]);
      } else {
        st := st.(direct := Appended(st.direct, methods, path));
      }
      return;
    }
    var threshold := ProbeThreshold(limits.value);
    if threshold.None? {
      errors := errors + [About(path, NoLocalTarget)];
      return;
    }
    if locals[path].tokens <= threshold.value {
      st := st.(screened := st.screened + {path});
      return;
    }
    if w.cache.Some? {
      var (cached, state) := CachedMeasurement(w, path, methods, w.cache.value);
      st := st.(states := st.states[path := state]);
      if cached.Some? {
        st := st.(measured := st.measured[path := cached.value]);
        return;
      }
    }
    st := st.(live := Appended(st.live, methods, path), pending := st.pending + {path});
  }

  method SortCandidates(w: World, locals: map<string, Measured>, cands: seq<string>, before: seq<Message>)
    returns (errors: seq<Message>, st: Sorting)
    ensures var r := p => RouteOf(w, locals, p);
            errors == before + Each(cands, p => RouteNotes(r, p)) && st == SortAll(r, w.cache.Some?, cands)
  {
    ghost var r := p => RouteOf(w, locals, p);
    ghost var notes := p => RouteNotes(r, p);
    errors, st := before, UNSORTED;
    for i := 0 to |cands|
      invariant errors == before + Each(cands[..i], notes)
      invariant st == SortAll(r, w.cache.Some?, cands[..i])
    {
      assert cands[..i + 1][..i] == cands[..i];
      EachGrows(cands, i, notes);
      TaggedOne(cands[i], LocalUnavailable);
      TaggedOne(cands[i], NoLocalTarget);
      errors, st := SortCandidate(w, locals, cands[i], errors, st);
    }
    assert cands[..|cands|] == cands;
  }

  method CountGroups(count: Counter, g: Groups, base: map<string, Measured>) returns (counted: map<string, Measured>)
    requires forall chain <- g.order :: chain in g.paths
    ensures counted == Counted(count, g, |g.order|, base)
  {
    counted := base;
    for k := 0 to |g.order|
      invariant counted == Counted(count, g, k, base)
    {
      counted := counted + count(g.paths[g.order[k]], g.order[k]);
    }
  }

  /** Before the live counts are accepted, measured holds every judgement but theirs. */
  ghost predicate JudgedBut(w: World, r: Routes, cands: seq<string>, measured: map<string, Measured>, live: seq<string>) {
    forall p <- cands :: Lookup(measured, p) == if r(p).Probe? && p !in live then None else Judged(w, r, cands, p)
  }

  lemma MeasuredSoFar(w: World, r: Routes, cands: seq<string>, st: Sorting)
    requires Obedient(w.count) && st == SortAll(r, w.cache.Some?, cands)
    requires forall chain <- st.direct.order :: chain in st.direct.paths
    ensures JudgedBut(w, r, cands, Counted(w.count, st.direct, |st.direct.order|, st.measured), [])
  {
    SortAllGroups(r, w.cache.Some?, cands);
    SortAllNotes(r, w.cache.Some?, cands);
    forall p <- cands
      ensures Lookup(Counted(w.count, st.direct, |st.direct.order|, st.measured), p) ==
              if r(p).Probe? then None else Judged(w, r, cands, p)
    {
      if r(p).Direct? {
        CountedAnswers(r, cands, false, st.direct, w.count, st.measured, p, r(p).chain);
      } else {
        CountedSpares(r, cands, false, st.direct, w.count, st.measured, p);
      }
    }
  }

  lemma LiveIsAnswer(w: World, r: Routes, cands: seq<string>, st: Sorting, p: string)
    requires Obedient(w.count) && st == SortAll(r, w.cache.Some?, cands) && p in cands
    requires forall chain <- st.live.order :: chain in st.live.paths
    ensures var live := Counted(w.count, st.live, |st.live.order|, map[]);
            Lookup(live, p) == if r(p).Probe? then Answer(w, r, cands, p) else None
  {
    SortAllGroups(r, w.cache.Some?, cands);
    if r(p).Probe? {
      CountedAnswers(r, cands, true, st.live, w.count, map[], p, r(p).chain);
    } else {
      CountedSpares(r, cands, true, st.live, w.count, map[], p);
    }
  }

  lemma AcceptOne(w: World, r: Routes, cands: seq<string>, measured: map<string, Measured>, seen: seq<string>, path: string)
    requires JudgedBut(w, r, cands, measured, seen) && path in cands
    ensures var judged := Judged(w, r, cands, path);
            JudgedBut(w, r, cands, if r(path).Probe? && judged.Some? then measured[path := judged.value] else measured, seen + [path])
  {}

  lemma ProbeVerdict(w: World, r: Routes, cands: seq<string>, path: string)
    requires r(path).Probe?
    ensures var answer := Answer(w, r, cands, path);
            && Judged(w, r, cands, path) == (if answer.Some? && Authoritative(w, path, answer.value) then answer else None)
            && ProbeNotes(w, r, cands, path) ==
                 if Judged(w, r, cands, path).None? then [AuthoritativeUnavailable(r(path).state, w.cache.Some?)] else []
  {}

  lemma NoProbeNoNotes(w: World, r: Routes, cands: seq<string>, path: string)
    requires !r(path).Probe?
    ensures ProbeNotes(w, r, cands, path) == []
  {}

  method AcceptOneLive(w: World, ghost r: Routes, ghost cands: seq<string>, st: Sorting, live: map<string, Measured>,
                       measured0: map<string, Measured>, before: seq<Message>, path: string, ghost seen: seq<string>)
    returns (errors: seq<Message>, measured: map<string, Measured>)
    requires path in st.pending <==> r(path).Probe?
    requires r(path).Probe? ==> r(path).state == if path in st.states then st.states[path] else Disabled
    requires path in cands && Lookup(live, path) == if r(path).Probe? then Answer(w, r, cands, path) else None
    requires JudgedBut(w, r, cands, measured0, seen)
    ensures errors == before + Tagged(path, ProbeNotes(w, r, cands, path))
    ensures JudgedBut(w, r, cands, measured, seen + [path])
  {
    errors, measured := before, measured0;
    AcceptOne(w, r, cands, measured, seen, path);
    if path !in st.pending {
      NoProbeNoNotes(w, r, cands, path);
      return;
    }
    ProbeVerdict(w, r, cands, path);
    var answer := Lookup(live, path);
    if answer.None? || !Authoritative(w, path, answer.value) {
      var state := if path in st.states then st.states[path] else Disabled;
      TaggedOne(path, AuthoritativeUnavailable(state, w.cache.Some?));
      errors := errors + [About(path, AuthoritativeUnavailable(state, w.cache.Some?))];
      return;
    }
    measured := measured[path := answer.value];
  }

  ghost predicate StatesKnown(w: World, r: Routes, cands: seq<string>, st: Sorting) {
    forall p <- cands ::
      && (p in st.pending <==> r(p).Probe?)
      && (r(p).Probe? ==> r(p).state == if p in st.states then st.states[p] else Disabled)
  }

  method AcceptLive(w: World, ghost r: Routes, cands: seq<string>, st: Sorting, live: map<string, Measured>,
                    measured0: map<string, Measured>, before: seq<Message>)
    returns (errors: seq<Message>, measured: map<string, Measured>)
    requires StatesKnown(w, r, cands, st)
    requires forall p <- cands :: Lookup(live, p) == if r(p).Probe? then Answer(w, r, cands, p) else None
    requires JudgedBut(w, r, cands, measured0, [])
    ensures errors == before + Each(cands, p => ProbeNotes(w, r, cands, p))
    ensures JudgedBut(w, r, cands, measured, cands)
  {
    ghost var notes := p => ProbeNotes(w, r, cands, p);
    errors, measured := before, measured0;
    for i := 0 to |cands|
      invariant errors == before + Each(cands[..i], notes)
      invariant JudgedBut(w, r, cands, measured, cands[..i])
    {
      EachGrows(cands, i, notes);
      assert cands[..i + 1] == cands[..i] + [cands[i]];
      errors, measured := AcceptOneLive(w, r, cands, st, live, measured, errors, cands[i], cands[..i]);
    }
    assert cands[..|cands|] == cands;
  }

  /** What the dictionaries have to say of a candidate when it is judged. */
  ghost predicate ReadyToJudge(w: World, r: Routes, cands: seq<string>, st: Sorting, live: map<string, Measured>,
                               measured: map<string, Measured>, p: string) {
    && (p in st.screened <==> r(p).Screened?)
    && (r(p).Unlimited? <==> GetLimits(w.policy, p).None?)
    && (r(p).Probe? && w.cache.Some? ==> p in st.states && st.states[p] == r(p).state != Current)
    && Lookup(measured, p) == Judged(w, r, cands, p)
    && (p in live <==> r(p).Probe? && Answer(w, r, cands, p).Some?)
  }

  method JudgeOne(w: World, ghost r: Routes, ghost cands: seq<string>, st: Sorting, live: map<string, Measured>,
                  measured: map<string, Measured>, errors0: seq<Message>, warnings0: seq<Message>, path: string)
    returns (errors: seq<Message>, warnings: seq<Message>)
    requires ReadyToJudge(w, r, cands, st, live, measured, path)
    ensures errors == errors0 + Tagged(path, VerdictNotes(w, r, cands, path, Mentioned(w, errors0, path)))
    ensures warnings == warnings0 + Tagged(path, VerdictWarnings(w, r, cands, path))
  {
    errors, warnings := errors0, warnings0;
    if path in st.screened { return; }
    var limits := GetLimits(w.policy, path);
    if limits.None? { return; }
    var judged := Lookup(measured, path);
    if judged.None? {
      if !(exists e <- errors :: Mentions(w, e, path)) {
        TaggedOne(path, CountUnavailable);
        errors := errors + [About(path, CountUnavailable)];
      }
      return;
    }
    var over := OverLimits(limits.value, judged.value);
    errors := errors + Tagged(path, over);
    warnings := warnings + Tagged(path, Warnings(limits.value, judged.value));
    if path in live && w.cache.Some? && over == [] && (path !in st.states || st.states[path] != Current) {
      var state := if path in st.states then st.states[path] else Missing;
      TaggedOne(path, CacheNotCurrent(state));
      errors := errors + [About(path, CacheNotCurrent(state))];
    }
    assert over + [] == over;
  }

  lemma VerdictGrows(w: World, v: Verdict, cands: seq<string>, i: nat, before: seq<Message>, notes: seq<Note>)
    requires i < |cands| && notes == v(cands[i], Mentioned(w, WithVerdicts(w, v, cands, i, before), cands[i]))
    ensures WithVerdicts(w, v, cands, i + 1, before) == WithVerdicts(w, v, cands, i, before) + Tagged(cands[i], notes)
  {}

  method JudgeAll(w: World, ghost r: Routes, cands: seq<string>, st: Sorting, live: map<string, Measured>,
                  measured: map<string, Measured>, before: seq<Message>)
    returns (errors: seq<Message>, warnings: seq<Message>)
    requires forall i | 0 <= i < |cands| :: ReadyToJudge(w, r, cands, st, live, measured, cands[i])
    ensures errors == WithVerdicts(w, (p, mentioned) => VerdictNotes(w, r, cands, p, mentioned), cands, |cands|, before)
    ensures warnings == Each(cands, p => VerdictWarnings(w, r, cands, p))
  {
    ghost var notes := p => VerdictWarnings(w, r, cands, p);
    ghost var verdict := (p, mentioned) => VerdictNotes(w, r, cands, p, mentioned);
    errors, warnings := before, [];
    for i := 0 to |cands|
      invariant errors == WithVerdicts(w, verdict, cands, i, before)
      invariant warnings == Each(cands[..i], notes)
    {
      ghost var found := VerdictNotes(w, r, cands, cands[i], Mentioned(w, errors, cands[i]));
      VerdictGrows(w, verdict, cands, i, before, found);
      EachGrows(cands, i, notes);
      errors, warnings := JudgeOne(w, r, cands, st, live, measured, errors, warnings, cands[i]);
    }
    assert cands[..|cands|] == cands;
  }

  lemma ProbeStates(w: World, files: seq<string>, p: string)
    ensures var route := RoutesOf(w, files)(p);
            && (route.Unlimited? <==> GetLimits(w.policy, p).None?)
            && (route.Probe? ==> route.state != Current && (w.cache.None? ==> route.state == Disabled))
  {}

  lemma RoutesAreKnown(w: World, files: seq<string>, st: Sorting)
    requires Noted(RoutesOf(w, files), w.cache.Some?, Candidates(w, files), st)
    ensures var r, cands := RoutesOf(w, files), Candidates(w, files);
            && StatesKnown(w, r, cands, st)
            && (forall p <- cands :: p in st.screened <==> r(p).Screened?)
            && (forall p <- cands | r(p).Probe? && w.cache.Some? :: p in st.states && st.states[p] == r(p).state != Current)
  {
    var r := RoutesOf(w, files);
    forall p ensures r(p).Probe? ==> r(p).state != Current && (w.cache.None? ==> r(p).state == Disabled) {
      ProbeStates(w, files, p);
    }
  }

  lemma ReadyAll(w: World, files: seq<string>, st: Sorting, live: map<string, Measured>, measured: map<string, Measured>)
    requires var r, cands := RoutesOf(w, files), Candidates(w, files);
             && Noted(r, w.cache.Some?, cands, st) && JudgedBut(w, r, cands, measured, cands)
             && forall p <- cands :: Lookup(live, p) == if r(p).Probe? then Answer(w, r, cands, p) else None
    ensures var r, cands := RoutesOf(w, files), Candidates(w, files);
            forall i | 0 <= i < |cands| :: ReadyToJudge(w, r, cands, st, live, measured, cands[i])
  {
    var r, cands := RoutesOf(w, files), Candidates(w, files);
    RoutesAreKnown(w, files, st);
    forall i | 0 <= i < |cands| ensures ReadyToJudge(w, r, cands, st, live, measured, cands[i]) {
      ProbeStates(w, files, cands[i]);
    }
  }

  /** The counting of the candidates that the local screen and the cache leave open. */
  method CountAndJudge(w: World, ghost files: seq<string>, cands: seq<string>, st: Sorting, before: seq<Message>)
    returns (errors: seq<Message>, warnings: seq<Message>)
    requires Obedient(w.count) && cands == Candidates(w, files)
    requires st == SortAll(RoutesOf(w, files), w.cache.Some?, cands)
    ensures var r := RoutesOf(w, files);
            && errors == WithVerdicts(w, VerdictOf(w, files), cands, |cands|, before + Each(cands, p => ProbeNotes(w, r, cands, p)))
            && warnings == Each(cands, p => VerdictWarnings(w, r, cands, p))
  {
    ghost var r := RoutesOf(w, files);
    SortAllGroups(r, w.cache.Some?, cands);
    SortAllNotes(r, w.cache.Some?, cands);
    RoutesAreKnown(w, files, st);
    MeasuredSoFar(w, r, cands, st);
    forall p <- cands
      ensures Lookup(Counted(w.count, st.live, |st.live.order|, map[]), p) == if r(p).Probe? then Answer(w, r, cands, p) else None
    {
      LiveIsAnswer(w, r, cands, st, p);
    }
    var measured := CountGroups(w.count, st.direct, st.measured);
    var live := CountGroups(w.count, st.live, map[]);
    errors, measured := AcceptLive(w, r, cands, st, live, measured, before);
    ReadyAll(w, files, st, live, measured);
    errors, warnings := JudgeAll(w, r, cands, st, live, measured, errors);
  }

  /** check_files with check_tokens set. */
  method CheckFiles(w: World, files: seq<string>) returns (errors: seq<Message>, warnings: seq<Message>)
    requires Obedient(w.count)
    ensures errors == Errors(w, files) && warnings == WarningsOf(w, files)
  {
    var cands;
    errors, cands := ScreenLines(w, files);
    warnings := [];
    if cands == [] { return; }
    var locals := w.count(cands, [LOCAL_METHOD]);
    if locals == map[] {
      errors := errors + [NoLocalCounts(|cands|)];
      return;
    }
    var st;
    errors, st := SortCandidates(w, locals, cands, errors);
    errors, warnings := CountAndJudge(w, files, cands, st, errors);
  }
}
