/** What a passing check has in hand for a provider-backed file: a recorded count of exactly its bytes. */
module FileCheckEvidence {
  import opened FileLimits
  import opened Values
  import opened FileCheck
  import opened FileCheckTheorems

  /** A provider-backed file whose local count lies above its screen. */
  predicate IsAboveScreen(w: World, files: seq<string>, p: string) {
    var limits, locals := LimitsOf(w, p), Locals(w, files);
    && ProviderFamilies(Methods(w.policy, limits)) != {} && ProbeThreshold(limits).Some?
    && p in locals && locals[p].tokens > ProbeThreshold(limits).value
  }

  /** The entry recorded for the file counts these bytes, by a method of its chain, within its family's maximum. */
  predicate IsEvidence(w: World, p: string, entries: map<string, Entry>) {
    var key, limits := w.tree.key(p), LimitsOf(w, p);
    && key in entries && w.tree.digest(p) == Some(entries[key].sha256)
    && entries[key].via in Methods(w.policy, limits) && FamilyOf(entries[key].via) == Some(entries[key].family)
    && entries[key].tokens.Int?
    && var max := LimitFor(limits.max, entries[key].family); max.Some? ==> entries[key].tokens.n <= max.value
  }

  lemma JustifiedByEvidence(w: World, files: seq<string>, p: string)
    requires w.cache.Some? && IsAboveScreen(w, files, p)
    ensures Justified(w, files, p) <==> IsEvidence(w, p, w.cache.value)
  {}

  /**
    With recorded counts, an error-free check means that every provider-backed file above its screen has an entry
    for exactly its bytes, by a method of its own chain, within the maximum of that method's family.
  */
  lemma PassingNeedsEvidence(w: World, files: seq<string>, p: string)
    requires w.cache.Some? && Errors(w, files) == [] && p in Candidates(w, files) && IsAboveScreen(w, files, p)
    ensures var key, limits := w.tree.key(p), LimitsOf(w, p);
            && key in w.cache.value && w.tree.digest(p) == Some(w.cache.value[key].sha256)
            && w.cache.value[key].via in Methods(w.policy, limits)
            && FamilyOf(w.cache.value[key].via) == Some(w.cache.value[key].family)
            && w.cache.value[key].tokens.Int?
            && var max := LimitFor(limits.max, w.cache.value[key].family);
               max.Some? ==> w.cache.value[key].tokens.n <= max.value
  {
    NoSilentPass(w, files);
    JustifiedByEvidence(w, files, p);
  }

  /** An edit that leaves the recorded entries behind makes the check fail, whatever else it changes. */
  lemma EditsAreNoticed(w: World, files: seq<string>, p: string)
    requires w.cache.Some? && p in Candidates(w, files) && IsAboveScreen(w, files, p)
    requires w.tree.key(p) in w.cache.value ==> w.tree.digest(p) != Some(w.cache.value[w.tree.key(p)].sha256)
    ensures Errors(w, files) != []
  {
    if Errors(w, files) == [] {
      PassingNeedsEvidence(w, files, p);
    }
  }

  /** Where every candidate is a provider-backed file above its screen, evidence for each is all that is asked. */
  lemma EvidenceSuffices(w: World, files: seq<string>)
    requires w.cache.Some? && forall p <- Candidates(w, files) :: IsAboveScreen(w, files, p)
    ensures Errors(w, files) == [] <==>
      && (forall p <- files :: LineErrors(w, p) == [])
      && forall p <- Candidates(w, files) :: IsEvidence(w, p, w.cache.value)
  {
    NoSilentPass(w, files);
    forall p <- Candidates(w, files) {
      JustifiedByEvidence(w, files, p);
    }
  }

  /** A file passes the line check unless it is whitelisted, limited, there, and longer than its rule or the default allows. */
  lemma LinesAreBounded(w: World, path: string)
    ensures LineErrors(w, path) != [] <==>
      && (w.policy.whitelist == [] || exists prefix <- w.policy.whitelist :: prefix <= path)
      && GetLimits(w.policy, path).Some? && w.tree.exists_(path)
      && w.tree.lines(path) >
         if GetLimits(w.policy, path).value.maxLines.Some? then GetLimits(w.policy, path).value.maxLines.value else 2000
  {}

  // ----- The policy's parts -----

  /** Rule i decides for the path: it matches, and none before it does. */
  predicate Decides(p: Policy, path: string, i: nat) {
    && i < |p.rules| && p.matches(path, p.rules[i].pattern)
    && forall j | 0 <= j < i :: !p.matches(path, p.rules[j].pattern)
  }

  /** Rule i of the list is the first that matches the path, and it grants these limits. */
  predicate Grants(rules: seq<Rule>, p: Policy, path: string, limits: Limits, i: nat) {
    && i < |rules| && p.matches(path, rules[i].pattern) && !rules[i].skip && rules[i].limits == limits
    && forall j | 0 <= j < i :: !p.matches(path, rules[j].pattern)
  }

  lemma {:induction false} FirstMatchDecides(rules: seq<Rule>, p: Policy, path: string, limits: Limits)
    ensures LimitsFrom(rules, p, path) == Some(limits) <==> exists i: nat :: Grants(rules, p, path, limits, i)
  {
    if rules != [] && !p.matches(path, rules[0].pattern) {
      FirstMatchDecides(rules[1..], p, path, limits);
      var rest := rules[1..];
      if i: nat :| Grants(rest, p, path, limits, i) {
        assert forall j | 0 <= j < i + 1 :: j == 0 || rules[j] == rest[j - 1];
        assert Grants(rules, p, path, limits, i + 1);
      }
      if i: nat :| Grants(rules, p, path, limits, i) {
        assert forall j | 0 <= j < i - 1 :: rest[j] == rules[j + 1];
        assert Grants(rest, p, path, limits, i - 1);
      }
    } else if rules != [] && !rules[0].skip {
      assert rules[0].limits == limits ==> Grants(rules, p, path, limits, 0);
    }
  }

  /** A file has limits exactly if the first rule that matches it skips nothing, and then that rule's. */
  lemma TheFirstMatchLimits(p: Policy, path: string, limits: Limits)
    ensures GetLimits(p, path) == Some(limits) <==>
      exists i: nat :: Decides(p, path, i) && !p.rules[i].skip && p.rules[i].limits == limits
  {
    FirstMatchDecides(p.rules, p, path, limits);
    if i: nat :| Grants(p.rules, p, path, limits, i) {
      assert Decides(p, path, i);
    }
    if i: nat :| Decides(p, path, i) && !p.rules[i].skip && p.rules[i].limits == limits {
      assert Grants(p.rules, p, path, limits, i);
    }
  }

  lemma {:induction false} NonBlankHolds(p: Policy, items: seq<Json>, m: string)
    ensures m in NonBlank(p, items) <==> m != "" && exists item <- items :: p.text(item) == m
  {
    if items != [] {
      NonBlankHolds(p, items[1..], m);
      assert items == [items[0]] + items[1..];
    }
  }

  /** The list that names a rule's methods: its own, if it has one at all, before the policy's. */
  function Listed(p: Policy, limits: Limits): Json {
    if Truthy(limits.methods) then limits.methods else p.methods
  }

  /** A rule's methods are the nonblank texts of its list, or the local method alone where that names none. */
  lemma MethodsAreListed(p: Policy, limits: Limits, m: string)
    ensures Methods(p, limits) != []
    ensures
      var listed := Listed(p, limits);
      var named := listed.Arr? && exists item <- listed.items :: p.text(item) != "";
      m in Methods(p, limits) <==>
        if named then m != "" && exists item <- listed.items :: p.text(item) == m else m == LOCAL_METHOD
  {
    var listed := Listed(p, limits);
    if listed.Arr? {
      NonBlankHolds(p, listed.items, m);
      if item :| item in listed.items && p.text(item) != "" {
        NonBlankHolds(p, listed.items, p.text(item));
      } else if NonBlank(p, listed.items) != [] {
        NonBlankHolds(p, listed.items, NonBlank(p, listed.items)[0]);
      }
    }
  }

  /** A number bounds every family; a mapping bounds a family by its own number alone; fractions are cut off. */
  lemma LimitsOfFamilies(spec: Json, family: string)
    ensures spec.Int? ==> LimitFor(spec, family) == Some(spec.n)
    ensures spec.Float? && spec.r >= 0.0 ==>
      LimitFor(spec, family).Some? && (LimitFor(spec, family).value as real) <= spec.r < (LimitFor(spec, family).value + 1) as real
    ensures spec.Float? && spec.r < 0.0 ==>
      LimitFor(spec, family).Some? && ((LimitFor(spec, family).value - 1) as real) < spec.r <= LimitFor(spec, family).value as real
    ensures spec.Obj? ==>
      LimitFor(spec, family) ==
        if family in spec.fields && (spec.fields[family].Int? || spec.fields[family].Float?)
        then LimitFor(spec.fields[family], family) else None
    ensures spec.Null? || spec.Bool? || spec.Str? || spec.Arr? ==> LimitFor(spec, family) == None
  {}
}
