/** The model-source catalog: its identifier index and the resolution of backend instances. */
module BackendResolver {
  import opened Values

  datatype Source = Source(
    id: string, provider: string, adapter: Option<string>, backendKind: Option<string>, templates: seq<string>)

  datatype MatchedBy = InstanceId | Alias | Kind

  datatype Resolution = Found(source: Source, by_: MatchedBy) | DuplicateId | Ambiguous | NotFound

  datatype Index = Index(lookup: map<string, string>) | Invalid(why: string)

  function BackendKind(s: Source): string {
    if s.backendKind.Some? then s.backendKind.value
    else if s.adapter.Some? then s.adapter.value
    else if s.provider in {"litellm_local", "litellm_remote"} then "litellm"
    else s.provider
  }

  function Matches(catalog: seq<Source>, p: Source -> bool): seq<Source> {
    if catalog == [] then []
    else (if p(catalog[0]) then [catalog[0]] else []) + Matches(catalog[1..], p)
  }

  function HasId(x: string): Source -> bool {
    (s: Source) => s.id == x
  }

  function HasAlias(x: string): Source -> bool {
    (s: Source) => x in s.templates
  }

  function HasKind(x: string): Source -> bool {
    (s: Source) => BackendKind(s) == x
  }

  /** Instance ids win over aliases, and aliases over kinds; each must be unique where it is used. */
  function Resolve(x: string, catalog: seq<Source>): Resolution {
    var ids, aliases, kinds :=
      Matches(catalog, HasId(x)), Matches(catalog, HasAlias(x)), Matches(catalog, HasKind(x));
    if |ids| > 1 then DuplicateId
    else if |ids| == 1 then Found(ids[0], InstanceId)
    else if |aliases| > 1 then Ambiguous
    else if |aliases| == 1 then Found(aliases[0], Alias)
    else if |kinds| > 1 then Ambiguous
    else if |kinds| == 1 then Found(kinds[0], Kind)
    else NotFound
  }

  predicate Names(s: Source, x: string) {
    s.id == x || x in s.templates
  }

  /** Every identifier is nonempty and belongs to one source. */
  ghost predicate IsUnambiguous(catalog: seq<Source>) {
    && (forall s <- catalog :: !Names(s, ""))
    && forall i, j, x :: 0 <= i < j < |catalog| && Names(catalog[i], x) ==> !Names(catalog[j], x)
  }

  /** The index of a catalog: every identifier, to the id of the source it names. */
  ghost predicate Indexes(catalog: seq<Source>, lookup: map<string, string>) {
    && (forall s <- catalog, x | Names(s, x) :: x in lookup && lookup[x] == s.id)
    && forall x <- lookup :: exists s <- catalog :: Names(s, x)
  }

  /** The inner loop of _build_identifier_lookup: one source's id and aliases, repeats skipped. */
  method AddSource(lookup: map<string, string>, s: Source) returns (r: Index)
    ensures r.Index? <==> !Names(s, "") && forall x | Names(s, x) :: x !in lookup
    ensures r.Index? ==> forall x :: x in r.lookup <==> x in lookup || Names(s, x)
    ensures r.Index? ==> forall x <- r.lookup :: r.lookup[x] == if x in lookup then lookup[x] else s.id
  {
    var identifiers := [s.id] + s.templates;
    assert forall x :: x in identifiers <==> Names(s, x);
    var seen: set<string> := {};
    var grown := lookup;
    for i := 0 to |identifiers|
      invariant forall x :: x in seen <==> x in identifiers[..i]
      invariant forall x <- seen :: x != "" && x !in lookup
      invariant forall x :: x in grown <==> x in lookup || x in seen
      invariant forall x <- grown :: grown[x] == if x in lookup then lookup[x] else s.id
    {
      var x := identifiers[i];
      assert identifiers[..i + 1] == identifiers[..i] + [x] && x in identifiers;
      if x !in seen {
        seen := seen + {x};
        if x == "" { return Invalid("empty identifier"); }
        if x in grown { return Invalid("duplicate model-source identifier"); }
        grown := grown[x := s.id];
      }
    }
    assert identifiers[..|identifiers|] == identifiers;
    r := Index(grown);
  }

  /** _build_identifier_lookup: a catalog is indexed exactly when it is unambiguous. */
  method BuildIdentifierLookup(catalog: seq<Source>) returns (r: Index)
    ensures r.Index? <==> IsUnambiguous(catalog)
    ensures r.Index? ==> Indexes(catalog, r.lookup)
  {
    var lookup: map<string, string> := map[];
    for i := 0 to |catalog|
      invariant IsUnambiguous(catalog[..i]) && Indexes(catalog[..i], lookup)
    {
      var s := catalog[i];
      var next := AddSource(lookup, s);
      assert catalog[..i + 1] == catalog[..i] + [s];
      IndexGrows(catalog[..i], lookup, s);
      if next.Invalid? {
        UnambiguousPrefix(catalog, i + 1);
        return next;
      }
      lookup := next.lookup;
    }
    assert catalog[..|catalog|] == catalog;
    r := Index(lookup);
  }

  lemma UnambiguousPrefix(catalog: seq<Source>, n: nat)
    requires n <= |catalog|
    ensures IsUnambiguous(catalog) ==> IsUnambiguous(catalog[..n])
  {}

  lemma IndexGrows(catalog: seq<Source>, lookup: map<string, string>, s: Source)
    requires IsUnambiguous(catalog) && Indexes(catalog, lookup)
    ensures IsUnambiguous(catalog + [s]) <==> !Names(s, "") && forall x | Names(s, x) :: x !in lookup
  {
    var all := catalog + [s];
    assert all[|catalog|] == s;
    if x :| Names(s, x) && x in lookup {
      var t :| t in catalog && Names(t, x);
      var i :| 0 <= i < |catalog| && catalog[i] == t;
      assert all[i] == t;
    }
  }

  /** A filter keeps each source as often as it occurs. */
  lemma {:induction false} MatchesCount(catalog: seq<Source>, p: Source -> bool, s: Source)
    ensures multiset(Matches(catalog, p))[s] == if p(s) then multiset(catalog)[s] else 0
  {
    if catalog != [] {
      MatchesCount(catalog[1..], p, s);
      assert catalog == [catalog[0]] + catalog[1..];
    }
  }

  lemma MatchesAreReordered(a: seq<Source>, b: seq<Source>, p: Source -> bool)
    requires multiset(a) == multiset(b)
    ensures multiset(Matches(a, p)) == multiset(Matches(b, p))
    ensures |Matches(a, p)| == |Matches(b, p)|
    ensures |Matches(a, p)| == 1 ==> Matches(a, p) == Matches(b, p)
  {
    var left, right := Matches(a, p), Matches(b, p);
    forall s ensures multiset(left)[s] == multiset(right)[s] {
      MatchesCount(a, p, s);
      MatchesCount(b, p, s);
    }
    assert multiset(left) == multiset(right);
    assert |left| == |multiset(left)| == |multiset(right)| == |right|;
    if |left| == 1 {
      assert left == [left[0]] && right == [right[0]];
      assert left[0] in multiset(right);
    }
  }

  /** The order of the catalog, valid or not, never decides a resolution. */
  lemma ResolutionIgnoresOrder(x: string, a: seq<Source>, b: seq<Source>)
    requires multiset(a) == multiset(b)
    ensures Resolve(x, a) == Resolve(x, b)
  {
    MatchesAreReordered(a, b, HasId(x));
    MatchesAreReordered(a, b, HasAlias(x));
    MatchesAreReordered(a, b, HasKind(x));
  }

  lemma {:induction false} MatchesAreMembers(catalog: seq<Source>, p: Source -> bool, s: Source)
    ensures s in Matches(catalog, p) <==> s in catalog && p(s)
  {
    MatchesCount(catalog, p, s);
    assert s in Matches(catalog, p) <==> s in multiset(Matches(catalog, p));
    assert s in catalog <==> s in multiset(catalog);
  }

  lemma {:induction false} OneMatch(catalog: seq<Source>, p: Source -> bool, i: nat)
    requires i < |catalog| && p(catalog[i])
    requires forall j :: 0 <= j < |catalog| && j != i ==> !p(catalog[j])
    ensures Matches(catalog, p) == [catalog[i]]
  {
    if i == 0 {
      NoMatch(catalog[1..], p);
    } else {
      OneMatch(catalog[1..], p, i - 1);
    }
  }

  lemma {:induction false} NoMatch(catalog: seq<Source>, p: Source -> bool)
    requires forall s <- catalog :: !p(s)
    ensures Matches(catalog, p) == []
  {
    if catalog != [] {
      NoMatch(catalog[1..], p);
    }
  }

  lemma OneOwner(catalog: seq<Source>, i: int, j: int, x: string)
    requires IsUnambiguous(catalog) && 0 <= i < |catalog| && 0 <= j < |catalog| && i != j
    ensures !(Names(catalog[i], x) && Names(catalog[j], x))
  {}

  /** The index and the resolver agree on every identifier of an accepted catalog. */
  lemma ResolverAgreesWithIndex(catalog: seq<Source>, lookup: map<string, string>, x: string)
    requires IsUnambiguous(catalog) && Indexes(catalog, lookup) && x in lookup
    ensures Resolve(x, catalog).Found? && Resolve(x, catalog).source in catalog
    ensures var r := Resolve(x, catalog);
      r.source.id == lookup[x] && Names(r.source, x) && r.by_ == if x == lookup[x] then InstanceId else Alias
  {
    var s :| s in catalog && Names(s, x);
    var i :| 0 <= i < |catalog| && catalog[i] == s;
    forall j | 0 <= j < |catalog| && j != i ensures !Names(catalog[j], x) {
      OneOwner(catalog, i, j, x);
    }
    if s.id == x {
      OneMatch(catalog, HasId(x), i);
    } else {
      NoMatch(catalog, HasId(x));
      OneMatch(catalog, HasAlias(x), i);
    }
  }

  lemma IdsAreUnique(catalog: seq<Source>, x: string)
    requires IsUnambiguous(catalog)
    ensures |Matches(catalog, HasId(x))| <= 1 && |Matches(catalog, HasAlias(x))| <= 1
    ensures Resolve(x, catalog) != DuplicateId
  {
    if i: nat :| i < |catalog| && Names(catalog[i], x) {
      forall j | 0 <= j < |catalog| && j != i ensures !Names(catalog[j], x) {
        OneOwner(catalog, i, j, x);
      }
      if catalog[i].id == x {
        OneMatch(catalog, HasId(x), i);
      } else {
        NoMatch(catalog, HasId(x));
      }
      if x in catalog[i].templates {
        OneMatch(catalog, HasAlias(x), i);
      } else {
        NoMatch(catalog, HasAlias(x));
      }
    } else {
      NoMatch(catalog, HasId(x));
      NoMatch(catalog, HasAlias(x));
    }
  }

  /** A declared kind decides, then the adapter, then the provider, whose two litellm forms are one kind. */
  predicate IsOfKind(s: Source, x: string) {
    || s.backendKind == Some(x)
    || (s.backendKind == None && s.adapter == Some(x))
    || (s.backendKind == None && s.adapter == None &&
        if s.provider == "litellm_local" || s.provider == "litellm_remote" then x == "litellm" else s.provider == x)
  }

  lemma KindIs(s: Source, x: string)
    ensures HasKind(x)(s) <==> IsOfKind(s, x)
  {}

  /** One match is the only one; no match means none. */
  lemma MatchesBound(catalog: seq<Source>, p: Source -> bool)
    ensures |Matches(catalog, p)| == 1 ==>
      && Matches(catalog, p)[0] in catalog && p(Matches(catalog, p)[0])
      && forall s <- catalog :: p(s) ==> s == Matches(catalog, p)[0]
    ensures |Matches(catalog, p)| == 0 ==> forall s <- catalog :: !p(s)
  {
    forall s ensures s in Matches(catalog, p) <==> s in catalog && p(s) {
      MatchesAreMembers(catalog, p, s);
    }
    if |Matches(catalog, p)| == 1 {
      assert Matches(catalog, p)[0] in Matches(catalog, p);
    }
  }

  /** Whatever is found, in any catalog, is the one source that bears the identifier in the way reported. */
  lemma FoundIsTheOnlyBearer(x: string, catalog: seq<Source>)
    requires Resolve(x, catalog).Found?
    ensures Resolve(x, catalog).source in catalog
    ensures var r := Resolve(x, catalog);
      r.by_ == InstanceId ==> r.source.id == x && forall s <- catalog :: s.id == x ==> s == r.source
    ensures var r := Resolve(x, catalog);
      r.by_ == Alias ==>
        (x in r.source.templates && forall s <- catalog :: s.id != x && (x in s.templates ==> s == r.source))
    ensures var r := Resolve(x, catalog);
      r.by_ == Kind ==>
        (IsOfKind(r.source, x)
         && forall s <- catalog :: s.id != x && x !in s.templates && (IsOfKind(s, x) ==> s == r.source))
  {
    MatchesBound(catalog, HasId(x));
    MatchesBound(catalog, HasAlias(x));
    MatchesBound(catalog, HasKind(x));
    forall s ensures HasKind(x)(s) <==> IsOfKind(s, x) {
      KindIs(s, x);
    }
  }

  /** Two different places in the catalog hold sources of kind x. */
  ghost predicate IsSharedKind(catalog: seq<Source>, x: string) {
    exists i, j :: 0 <= i < j < |catalog| && BackendKind(catalog[i]) == BackendKind(catalog[j]) == x
  }

  lemma {:induction false} ManyMatches(catalog: seq<Source>, p: Source -> bool, i: nat, j: nat)
    requires i < j < |catalog| && p(catalog[i]) && p(catalog[j])
    ensures |Matches(catalog, p)| > 1
  {
    if i > 0 {
      ManyMatches(catalog[1..], p, i - 1, j - 1);
    } else {
      MatchesAreMembers(catalog[1..], p, catalog[j]);
      assert catalog[1..][j - 1] == catalog[j];
    }
  }

  /**
   * In an accepted catalog an identifier is ambiguous exactly when it is no id and no alias but a kind of several
   * sources, and unknown exactly when it is no kind either.
   */
  lemma AmbiguousIff(catalog: seq<Source>, lookup: map<string, string>, x: string)
    requires IsUnambiguous(catalog) && Indexes(catalog, lookup)
    ensures Resolve(x, catalog) == Ambiguous <==> x !in lookup && IsSharedKind(catalog, x)
    ensures Resolve(x, catalog) == NotFound <==> x !in lookup && forall s <- catalog :: BackendKind(s) != x
  {
    if x in lookup {
      ResolverAgreesWithIndex(catalog, lookup, x);
    } else {
      NoMatch(catalog, HasId(x));
      NoMatch(catalog, HasAlias(x));
      if i, j :| 0 <= i < j < |catalog| && BackendKind(catalog[i]) == BackendKind(catalog[j]) == x {
        ManyMatches(catalog, HasKind(x), i, j);
      } else if i: nat :| i < |catalog| && BackendKind(catalog[i]) == x {
        OneMatch(catalog, HasKind(x), i);
      } else {
        NoMatch(catalog, HasKind(x));
      }
    }
  }
}
