/** When a refresh writes the recorded counts, and what a readable file of them is, on the raw data. */
module CacheConditions {
  import opened FileLimits
  import opened Values
  import opened FileCheck
  import opened FileCheckRun
  import opened TokenCache
  import opened CacheRefresh
  import opened CacheTheorems

  /** A file needs no provider's count, or has one: an answer of its chain's families for bytes that can be hashed. */
  predicate IsServed(w: World, files: seq<string>, p: string) {
    var cands, limits := Refreshable(w, files), LimitsOf(w, p);
    var locals, methods := w.count(cands, [LOCAL_METHOD]), Methods(w.policy, limits);
    && p in locals
    && (|| ProviderFamilies(methods) == {}
        || (&& ProbeThreshold(limits).Some?
            && (|| locals[p].tokens <= ProbeThreshold(limits).value
                || (&& ProviderAnswer(w, RefreshRoutes(w, files), cands, p).Some?
                    && ProviderAnswer(w, RefreshRoutes(w, files), cands, p).value.family in ProviderFamilies(methods)
                    && w.tree.digest(p).Some?))))
  }

  lemma RecordOfIff(w: World, r: Routes, cands: seq<string>, p: string)
    requires Obedient(w.count) && p in cands && r(p).Probe?
    ensures var g := LiveGroups(r, cands);
            var answer := ProviderAnswer(w, r, cands, p);
            RecordOf(w, Counted(w.count, g, |g.order|, map[]), (p, r(p).chain)).0.Some? <==>
              answer.Some? && answer.value.family in ProviderFamilies(r(p).chain) && w.tree.digest(p).Some?
  {
    var g := LiveGroups(r, cands);
    CountedAnswers(r, cands, true, g, w.count, map[], p, r(p).chain);
  }

  /** What a file's route asks of a refresh. */
  predicate IsSettled(w: World, r: Routes, cands: seq<string>, p: string) {
    && !r(p).NoLocal? && !r(p).NoTarget?
    && (r(p).Probe? ==>
          && ProviderAnswer(w, r, cands, p).Some?
          && ProviderAnswer(w, r, cands, p).value.family in ProviderFamilies(r(p).chain)
          && w.tree.digest(p).Some?)
  }

  lemma RecordingsIff(w: World, r: Routes, cands: seq<string>, existing: map<string, Entry>)
    requires Obedient(w.count)
    ensures Recordings(w, r, cands, existing).refusals == [] <==> forall p <- cands :: IsSettled(w, r, cands, p)
  {
    var g := LiveGroups(r, cands);
    var results, asked := Counted(w.count, g, |g.order|, map[]), Flat(g, |g.order|);
    var st := Recording(Dropped(w, r, cands, existing), SortRefusals(r, cands), 0);
    RecordAllAccepts(w, results, asked, st);
    RefusedRoutes(r, cands);
    forall a ensures a in asked <==> a.0 in cands && r(a.0).Probe? && r(a.0).chain == a.1 { AskedAreProbes(r, cands, a); }
    forall p | p in cands && r(p).Probe?
      ensures (p, r(p).chain) in asked
      ensures RecordOf(w, results, (p, r(p).chain)).0.Some? <==> IsSettled(w, r, cands, p)
    {
      RecordOfIff(w, r, cands, p);
    }
  }

  lemma SettledIff(w: World, files: seq<string>, p: string)
    requires p in Refreshable(w, files)
    ensures IsSettled(w, RefreshRoutes(w, files), Refreshable(w, files), p) <==> IsServed(w, files, p)
  {
    RefreshableAre(w, files);
  }

  /**
   * A refresh writes exactly when some file is whitelisted, limited and there, the local counter reports at all, the
   * stored file can be read, and every such file needs no provider or has its answer.
   */
  lemma WrittenIff(w: World, files: seq<string>, file: Stored, replaceAll: bool)
    requires Obedient(w.count)
    ensures RefreshOutcome(w, files, file, replaceAll).Written? <==>
      && (exists p <- files :: w.tree.exists_(p) && IsWhitelisted(w.policy, p) && GetLimits(w.policy, p).Some?)
      && w.count(Refreshable(w, files), [LOCAL_METHOD]) != map[] && Load(file).Entries?
      && forall p <- files ::
           w.tree.exists_(p) && IsWhitelisted(w.policy, p) && GetLimits(w.policy, p).Some? ==> IsServed(w, files, p)
  {
    var cands, r := Refreshable(w, files), RefreshRoutes(w, files);
    RefreshableAre(w, files);
    forall p | p in cands ensures IsSettled(w, r, cands, p) <==> IsServed(w, files, p) {
      SettledIff(w, files, p);
    }
    RecordingsIff(w, r, cands, if replaceAll || Load(file).Rejected? then map[] else Load(file).entries);
    if cands != [] {
      assert cands[0] in cands;
    }
  }

  /** A recorded entry as the file must hold it: a SHA-256 in lower-case hex, a method, a provider, a count. */
  predicate IsStoredEntry(j: Json) {
    && j.Obj? && {"sha256", "method", "family", "tokens"} <= j.fields.Keys
    && j.fields["sha256"].Str? && |j.fields["sha256"].s| == 64
    && (forall c <- j.fields["sha256"].s :: '0' <= c <= '9' || 'a' <= c <= 'f')
    && j.fields["method"].Str? && j.fields["method"].s != ""
    && (j.fields["family"] == Str("anthropic") || j.fields["family"] == Str("gemini"))
    && j.fields["tokens"].Int? && j.fields["tokens"].n >= 0
  }

  lemma DecodesIff(j: Json)
    ensures DecodeEntry(j).Some? <==> IsStoredEntry(j)
    ensures DecodeEntry(j).Some? ==>
      DecodeEntry(j).value == Entry(j.fields["sha256"].s, j.fields["method"].s, j.fields["family"].s, j.fields["tokens"])
  {}

  /** A file is read exactly when it is missing or a mapping of version 1 whose entries are all well formed. */
  lemma ReadableIff(file: Stored)
    ensures Load(file).Entries? <==>
      || file.Absent?
      || (file.Holding? && file.payload.Obj?
          && Number(Field(file.payload.fields, "schema_version")) == Some(1.0)
          && Field(file.payload.fields, "entries").Obj?
          && forall key <- Field(file.payload.fields, "entries").fields ::
               IsStoredEntry(Field(file.payload.fields, "entries").fields[key]))
  {
    if file.Holding? && file.payload.Obj? && Field(file.payload.fields, "entries").Obj? {
      var raw := Field(file.payload.fields, "entries").fields;
      forall key | key in raw ensures DecodeEntry(raw[key]).Some? <==> IsStoredEntry(raw[key]) {
        DecodesIff(raw[key]);
      }
    }
  }

  /** What is read is what the file says, key by key and field by field. */
  lemma ReadAsStored(file: Stored, key: string)
    requires file.Holding? && Load(file).Entries?
    ensures file.payload.Obj? && Field(file.payload.fields, "entries").Obj?
    ensures var raw := Field(file.payload.fields, "entries").fields;
      && (key in Load(file).entries <==> key in raw)
      && (key in raw ==>
            && IsStoredEntry(raw[key])
            && Load(file).entries[key] == Entry(raw[key].fields["sha256"].s, raw[key].fields["method"].s,
                 raw[key].fields["family"].s, raw[key].fields["tokens"]))
  {
    var raw := Field(file.payload.fields, "entries").fields;
    if key in raw {
      DecodesIff(raw[key]);
    }
  }
}
