/** refresh_token_cache: which provider counts are recorded, and when nothing is. */
module CacheRefresh {
  import opened FileLimits
  import opened Values
  import opened FileCheck
  import opened FileCheckRun
  import opened TokenCache

  datatype Refusal =
    | NoCountsAtAll(candidates: nat) | NoLocalCount(path: string) | NoTargetFor(path: string)
    | NoProviderCount(path: string) | Unconfigured(path: string, family: string) | Unhashable(path: string)

  datatype Outcome = Idle | Raised | Refused(refusals: seq<Refusal>) | Written(entries: map<string, Entry>, refreshed: nat)

  function Refreshable(w: World, files: seq<string>): seq<string> {
    if files == [] then []
    else
      var last := files[|files| - 1];
      Refreshable(w, files[..|files| - 1]) +
      if w.tree.exists_(last) && IsWhitelisted(w.policy, last) && GetLimits(w.policy, last).Some? then [last] else []
  }

  /** Where each file's count would come from if nothing were recorded. */
  function FreshRoutes(w: World, locals: map<string, Measured>): Routes {
    p => RouteOf(w.(cache := None), locals, p)
  }

  /** The first pass: entries a file no longer needs are dropped. */
  function Dropped(w: World, r: Routes, cands: seq<string>, entries: map<string, Entry>): map<string, Entry> {
    if cands == [] then entries
    else
      var last, before := cands[|cands| - 1], Dropped(w, r, cands[..|cands| - 1], entries);
      if r(last).Local? || r(last).Direct? || r(last).Screened? then before - {w.tree.key(last)} else before
  }

  function RefusalOf(route: Route, path: string): seq<Refusal> {
    match route
    case NoLocal => [NoLocalCount(path)]
    case NoTarget => [NoTargetFor(path)]
    case _ => []
  }

  function SortRefusals(r: Routes, cands: seq<string>): seq<Refusal> {
    if cands == [] then []
    else
      var last := cands[|cands| - 1];
      SortRefusals(r, cands[..|cands| - 1]) + RefusalOf(r(last), last)
  }

  /** A file and the method chain of its group. */
  type Asked = (string, seq<string>)

  function RecordOf(w: World, results: map<string, Measured>, a: Asked): (Option<Entry>, seq<Refusal>) {
    var answer := Lookup(results, a.0);
    if answer.None? || answer.value.family !in ProviderFamilies(a.1) then (None, [NoProviderCount(a.0)])
    else
      var via := MethodForFamily(a.1, answer.value.family);
      if via.None? then (None, [Unconfigured(a.0, answer.value.family)])
      else if w.tree.digest(a.0).None? then (None, [Unhashable(a.0)])
      else (Some(Entry(w.tree.digest(a.0).value, via.value, answer.value.family, Int(answer.value.tokens))), [])
  }

  datatype Recording = Recording(entries: map<string, Entry>, refusals: seq<Refusal>, refreshed: nat)

  function Recorded(st: Recording, key: string, found: (Option<Entry>, seq<Refusal>)): Recording {
    if found.0.Some? then st.(entries := st.entries[key := found.0.value], refreshed := st.refreshed + 1)
    else st.(refusals := st.refusals + found.1)
  }

  function RecordAll(w: World, results: map<string, Measured>, asked: seq<Asked>, st: Recording): Recording {
    if asked == [] then st
    else
      var last := asked[|asked| - 1];
      Recorded(RecordAll(w, results, asked[..|asked| - 1], st), w.tree.key(last.0), RecordOf(w, results, last))
  }

  function Pairs(paths: seq<string>, chain: seq<string>): seq<Asked> {
    if paths == [] then [] else Pairs(paths[..|paths| - 1], chain) + [(paths[|paths| - 1], chain)]
  }

  /** The files of the first groups, group by group. */
  function Flat(g: Groups, n: nat): seq<Asked>
    requires n <= |g.order| && forall chain <- g.order :: chain in g.paths
  {
    if n == 0 then [] else Flat(g, n - 1) + Pairs(g.paths[g.order[n - 1]], g.order[n - 1])
  }

  function LiveGroups(r: Routes, cands: seq<string>): (g: Groups)
    ensures Grouped(r, cands, true, g)
  {
    SortAllGroups(r, false, cands);
    SortAll(r, false, cands).live
  }

  /** The recordings of a refresh whose local counts and stored entries are at hand. */
  function Recordings(w: World, r: Routes, cands: seq<string>, existing: map<string, Entry>): Recording {
    var g := LiveGroups(r, cands);
    RecordAll(w, Counted(w.count, g, |g.order|, map[]), Flat(g, |g.order|),
              Recording(Dropped(w, r, cands, existing), SortRefusals(r, cands), 0))
  }

  function RefreshOutcome(w: World, files: seq<string>, file: Stored, replaceAll: bool): Outcome {
    var cands := Refreshable(w, files);
    var locals := w.count(cands, [LOCAL_METHOD]);
    if cands == [] then Idle
    else if locals == map[] then Refused([NoCountsAtAll(|cands|)])
    else if Load(file).Rejected? then Raised
    else
      var done := Recordings(w, FreshRoutes(w, locals), cands, if replaceAll then map[] else Load(file).entries);
      if done.refusals != [] then Refused(done.refusals) else Written(done.entries, done.refreshed)
  }

  // ----- The program -----

  lemma RecordNext(w: World, results: map<string, Measured>, before: seq<Asked>, a: Asked, st: Recording)
    ensures RecordAll(w, results, before + [a], st) ==
            Recorded(RecordAll(w, results, before, st), w.tree.key(a.0), RecordOf(w, results, a))
  {
    assert (before + [a])[..|before|] == before;
  }

  lemma PairsNext(paths: seq<string>, j: nat, chain: seq<string>)
    requires j < |paths|
    ensures Pairs(paths[..j + 1], chain) == Pairs(paths[..j], chain) + [(paths[j], chain)]
  {
    assert paths[..j + 1][..j] == paths[..j];
  }

  method RecordGroups(w: World, results: map<string, Measured>, g: Groups, st0: Recording) returns (st: Recording)
    requires forall chain <- g.order :: chain in g.paths
    ensures st == RecordAll(w, results, Flat(g, |g.order|), st0)
  {
    st := st0;
    for k := 0 to |g.order|
      invariant st == RecordAll(w, results, Flat(g, k), st0)
    {
      var chain := g.order[k];
      var paths := g.paths[chain];
      assert Flat(g, k) + Pairs(paths[..0], chain) == Flat(g, k);
      for j := 0 to |paths|
        invariant st == RecordAll(w, results, Flat(g, k) + Pairs(paths[..j], chain), st0)
      {
        var path := paths[j];
        PairsNext(paths, j, chain);
        ghost var before := Flat(g, k) + Pairs(paths[..j], chain);
        assert Flat(g, k) + Pairs(paths[..j + 1], chain) == before + [(path, chain)];
        RecordNext(w, results, before, (path, chain), st0);
        var answer := Lookup(results, path);
        if answer.None? || answer.value.family !in ProviderFamilies(chain) {
          st := st.(refusals := st.refusals + [NoProviderCount(path)]);
          continue;
        }
        var via := MethodForFamily(chain, answer.value.family);
        if via.None? {
          st := st.(refusals := st.refusals + [Unconfigured(path, answer.value.family)]);
          continue;
        }
        var digest := w.tree.digest(path);
        if digest.None? {
          st := st.(refusals := st.refusals + [Unhashable(path)]);
          continue;
        }
        st := st.(entries := st.entries[w.tree.key(path) := Entry(digest.value, via.value, answer.value.family, Int(answer.value.tokens))],
                  refreshed := st.refreshed + 1);
      }
      assert paths[..|paths|] == paths;
    }
  }

  method SortForRefresh(w: World, locals: map<string, Measured>, cands: seq<string>, existing: map<string, Entry>)
    returns (entries: map<string, Entry>, refusals: seq<Refusal>, live: Groups)
    ensures var r := FreshRoutes(w, locals);
            && entries == Dropped(w, r, cands, existing) && refusals == SortRefusals(r, cands)
            && live == SortAll(r, false, cands).live
  {
    ghost var r := FreshRoutes(w, locals);
    entries, refusals, live := existing, [], NO_GROUPS;
    for i := 0 to |cands|
      invariant entries == Dropped(w, r, cands[..i], existing) && refusals == SortRefusals(r, cands[..i])
      invariant live == SortAll(r, false, cands[..i]).live
    {
      assert cands[..i + 1][..i] == cands[..i];
      entries, refusals, live := SortOneForRefresh(w, locals, cands[i], entries, refusals, live);
    }
    assert cands[..|cands|] == cands;
  }

  method SortOneForRefresh(w: World, locals: map<string, Measured>, path: string,
                           entries0: map<string, Entry>, refusals0: seq<Refusal>, live0: Groups)
    returns (entries: map<string, Entry>, refusals: seq<Refusal>, live: Groups)
    ensures var route := FreshRoutes(w, locals)(path);
            && entries == (if route.Local? || route.Direct? || route.Screened? then entries0 - {w.tree.key(path)} else entries0)
            && refusals == refusals0 + RefusalOf(route, path)
            && live == if route.Probe? then Appended(live0, route.chain, path) else live0
  {
    entries, refusals, live := entries0, refusals0, live0;
    var key := w.tree.key(path);
    var limits := GetLimits(w.policy, path);
    if limits.None? { return; }
    var methods := Methods(w.policy, limits.value);
    if path !in locals {
      refusals := refusals + [NoLocalCount(path)];
      return;
    }
    if ProviderFamilies(methods) == {} {
      entries := entries - {key};
      return;
    }
    var threshold := ProbeThreshold(limits.value);
    if threshold.None? {
      refusals := refusals + [NoTargetFor(path)];
      return;
    }
    if locals[path].tokens <= threshold.value {
      entries := entries - {key};
      return;
    }
    live := Appended(live, methods, path);
  }

  /** The cache file beside the policy. */
  class CacheFile {
    var stored: Stored

    constructor (initial: Stored)
      ensures stored == initial
    {
      stored := initial;
    }

    method Refresh(w: World, files: seq<string>, replaceAll: bool) returns (outcome: Outcome)
      modifies this
      ensures outcome == RefreshOutcome(w, files, old(stored), replaceAll)
      ensures stored == if outcome.Written? then Holding(Payload(outcome.entries)) else old(stored)
    {
      var cands := [];
      for i := 0 to |files|
        invariant cands == Refreshable(w, files[..i]) && stored == old(stored)
      {
        assert files[..i + 1][..i] == files[..i];
        if w.tree.exists_(files[i]) && IsWhitelisted(w.policy, files[i]) && GetLimits(w.policy, files[i]).Some? {
          cands := cands + [files[i]];
        }
      }
      assert files[..|files|] == files;
      if cands == [] { return Idle; }
      var locals := w.count(cands, [LOCAL_METHOD]);
      if locals == map[] { return Refused([NoCountsAtAll(|cands|)]); }
      var existing := Load(stored);
      if existing.Rejected? { return Raised; }
      ghost var r := FreshRoutes(w, locals);
      var entries, refusals, live := SortForRefresh(w, locals, cands, if replaceAll then map[] else existing.entries);
      SortAllGroups(r, false, cands);
      var results := CountGroups(w.count, live, map[]);
      var done := RecordGroups(w, results, live, Recording(entries, refusals, 0));
      if done.refusals != [] { return Refused(done.refusals); }
      stored := Holding(Payload(done.entries));
      outcome := Written(done.entries, done.refreshed);
    }
  }
}
