/** When checking many files at once is the same as checking each alone. */
module FileCheckBatches {
  import opened FileLimits
  import opened Values
  import opened FileCheck
  import opened FileCheckTheorems

  // ----- Reports as multisets -----

  type Findings = string -> seq<Note>

  function Total(files: seq<string>, f: string -> multiset<Message>): multiset<Message> {
    if files == [] then multiset{} else Total(files[..|files| - 1], f) + f(files[|files| - 1])
  }

  /** All that one file contributes, given what is found about it as a candidate. */
  function Own(w: World, R: Findings, P: Findings, F: Findings, p: string): multiset<Message> {
    multiset(LineErrors(w, p)) +
    if IsCandidate(w, p) then multiset(Tagged(p, R(p))) + multiset(Tagged(p, P(p))) + multiset(Tagged(p, F(p))) else multiset{}
  }

  lemma EachAppended(before: seq<string>, p: string, notes: Findings)
    ensures multiset(Each(before + [p], notes)) == multiset(Each(before, notes)) + multiset(Tagged(p, notes(p)))
  {
    assert (before + [p])[..|before|] == before;
  }

  /** What one more file adds to the lists of its report. */
  lemma CandidatesNext(w: World, files: seq<string>, notes: Findings)
    requires files != []
    ensures var n := |files| - 1;
      multiset(Each(Candidates(w, files), notes)) == multiset(Each(Candidates(w, files[..n]), notes))
        + if IsCandidate(w, files[n]) then multiset(Tagged(files[n], notes(files[n]))) else multiset{}
  {
    var before, last := Candidates(w, files[..|files| - 1]), files[|files| - 1];
    if IsCandidate(w, last) {
      EachAppended(before, last, notes);
    } else {
      assert Candidates(w, files) == before;
    }
  }

  lemma {:induction false} ReportIsTotal(w: World, files: seq<string>, R: Findings, P: Findings, F: Findings)
    ensures var cands := Candidates(w, files);
            multiset(LineReport(w, files) + Each(cands, R) + Each(cands, P) + Each(cands, F)) ==
            Total(files, p => Own(w, R, P, F, p))
  {
    if files != [] {
      var n := |files| - 1;
      ReportIsTotal(w, files[..n], R, P, F);
      CandidatesNext(w, files, R);
      CandidatesNext(w, files, P);
      CandidatesNext(w, files, F);
    }
  }

  // ----- Counters that answer for each file by itself -----

  type Single = (string, seq<string>) -> Option<Measured>

  ghost predicate Independent(count: Counter, one: Single) {
    forall paths, chain, p :: Lookup(count(paths, chain), p) == if p in paths then one(p, chain) else None
  }

  ghost predicate LocallyCounted(w: World, one: Single) {
    forall p | IsCandidate(w, p) :: one(p, [LOCAL_METHOD]).Some?
  }

  /** The route of a candidate, whatever batch it is in. */
  function SoloRoute(w: World, one: Single, p: string): Route {
    RouteOf(w, if one(p, [LOCAL_METHOD]).Some? then map[p := one(p, [LOCAL_METHOD]).value] else map[], p)
  }

  function SoloJudged(w: World, one: Single, p: string): Option<Measured> {
    match SoloRoute(w, one, p)
    case Local(m) => Some(m)
    case Cached(m) => Some(m)
    case Direct(chain) => one(p, chain)
    case Probe(chain, _) => if one(p, chain).Some? && Authoritative(w, p, one(p, chain).value) then one(p, chain) else None
    case _ => None
  }

  lemma RouteIsSolo(w: World, one: Single, files: seq<string>, p: string)
    requires Independent(w.count, one) && p in Candidates(w, files)
    ensures RoutesOf(w, files)(p) == SoloRoute(w, one, p)
  {
    var locals := Locals(w, files);
    assert Lookup(locals, p) == one(p, [LOCAL_METHOD]);
    SameLocal(w, locals, if one(p, [LOCAL_METHOD]).Some? then map[p := one(p, [LOCAL_METHOD]).value] else map[], p);
  }

  lemma SameLocal(w: World, a: map<string, Measured>, b: map<string, Measured>, p: string)
    requires Lookup(a, p) == Lookup(b, p)
    ensures RouteOf(w, a, p) == RouteOf(w, b, p)
  {}

  lemma {:induction false} InOwnGroup(r: Routes, paths: seq<string>, chain: seq<string>, live: bool, p: string)
    requires p in paths && InGroup(r(p), chain, live)
    ensures p in Group(r, paths, chain, live)
  {
    var n := |paths| - 1;
    if p != paths[n] { InOwnGroup(r, paths[..n], chain, live, p); }
  }

  lemma JudgedIsSolo(w: World, one: Single, files: seq<string>, p: string)
    requires Independent(w.count, one) && p in Candidates(w, files)
    ensures Judged(w, RoutesOf(w, files), Candidates(w, files), p) == SoloJudged(w, one, p)
  {
    var r, cands := RoutesOf(w, files), Candidates(w, files);
    RouteIsSolo(w, one, files, p);
    if r(p).Direct? || r(p).Probe? {
      InOwnGroup(r, cands, r(p).chain, r(p).Probe?, p);
      assert Lookup(w.count(Group(r, cands, r(p).chain, r(p).Probe?), r(p).chain), p) == one(p, r(p).chain);
    }
  }

  // ----- What is found about a file checked alone -----

  function RouteFindings(w: World, p: string): seq<Note> {
    RouteNotes(RoutesOf(w, [p]), p)
  }

  function ProbeFindings(w: World, p: string): seq<Note> {
    ProbeNotes(w, RoutesOf(w, [p]), Candidates(w, [p]), p)
  }

  function FinalFindings(w: World, p: string): seq<Note> {
    VerdictNotes(w, RoutesOf(w, [p]), Candidates(w, [p]), p, RouteFindings(w, p) != [] || ProbeFindings(w, p) != [])
  }

  function WarningFindings(w: World, p: string): seq<Note> {
    VerdictWarnings(w, RoutesOf(w, [p]), Candidates(w, [p]), p)
  }

  lemma CandidateAlone(w: World, p: string)
    requires IsCandidate(w, p)
    ensures Candidates(w, [p]) == [p]
  {
    assert [p][..0] == [];
  }

  /** Route and judgement decide what is found. */
  lemma SameFindings(w: World, r: Routes, s: Routes, cands: seq<string>, dands: seq<string>, p: string, mentioned: bool)
    requires r(p) == s(p) && Judged(w, r, cands, p) == Judged(w, s, dands, p)
    ensures RouteNotes(r, p) == RouteNotes(s, p)
    ensures ProbeNotes(w, r, cands, p) == ProbeNotes(w, s, dands, p)
    ensures VerdictNotes(w, r, cands, p, mentioned) == VerdictNotes(w, s, dands, p, mentioned)
    ensures VerdictWarnings(w, r, cands, p) == VerdictWarnings(w, s, dands, p)
  {}

  lemma FoundAlone(w: World, one: Single, files: seq<string>, p: string, mentioned: bool)
    requires Independent(w.count, one) && p in Candidates(w, files)
    ensures var r, cands := RoutesOf(w, files), Candidates(w, files);
            && RouteNotes(r, p) == RouteFindings(w, p)
            && ProbeNotes(w, r, cands, p) == ProbeFindings(w, p)
            && VerdictWarnings(w, r, cands, p) == WarningFindings(w, p)
            && VerdictNotes(w, r, cands, p, mentioned) == VerdictNotes(w, RoutesOf(w, [p]), Candidates(w, [p]), p, mentioned)
  {
    CandidatesAre(w, files);
    CandidateAlone(w, p);
    RouteIsSolo(w, one, files, p);
    RouteIsSolo(w, one, [p], p);
    JudgedIsSolo(w, one, files, p);
    JudgedIsSolo(w, one, [p], p);
    SameFindings(w, RoutesOf(w, files), RoutesOf(w, [p]), Candidates(w, files), Candidates(w, [p]), p, mentioned);
  }

  lemma {:induction false} EachEqual(paths: seq<string>, f: Findings, g: Findings)
    requires forall p <- paths :: f(p) == g(p)
    ensures Each(paths, f) == Each(paths, g)
  {
    if paths != [] { EachEqual(paths[..|paths| - 1], f, g); }
  }

  // ----- Who is mentioned -----

  lemma {:induction false} InTagged(path: string, notes: seq<Note>)
    ensures forall e <- Tagged(path, notes) :: e.About? && e.path == path
    ensures notes != [] ==> exists e :: e in Tagged(path, notes) && e.About? && e.path == path
  {
    if notes != [] {
      InTagged(path, notes[1..]);
      assert About(path, notes[0]) in Tagged(path, notes);
    }
  }

  lemma {:induction false} InEach(paths: seq<string>, f: Findings)
    ensures forall e <- Each(paths, f) :: e.About? && e.path in paths && f(e.path) != []
    ensures forall p <- paths | f(p) != [] :: exists e :: e in Each(paths, f) && e.About? && e.path == p
  {
    if paths != [] {
      var n := |paths| - 1;
      InEach(paths[..n], f);
      InTagged(paths[n], f(paths[n]));
      TaggedEmpty(paths[n], f(paths[n]));
      assert paths == paths[..n] + [paths[n]];
    }
  }

  lemma {:induction false} InLineReport(w: World, files: seq<string>)
    ensures forall e <- LineReport(w, files) :: e.About? && e.path in files && LineErrors(w, e.path) != []
  {
    if files != [] {
      var n := |files| - 1;
      InLineReport(w, files[..n]);
      assert files == files[..n] + [files[n]];
    }
  }

  /** No path begins with another one and a colon. */
  ghost predicate Separated(files: seq<string>) {
    forall p <- files, q <- files | p != q :: !(p + ":" <= q)
  }

  lemma MentionsItself(w: World, p: string, note: Note)
    ensures Mentions(w, About(p, note), p)
  {}

  lemma OneBeginsTheOther(p: string, q: string, text: string)
    requires p + ":" <= text && q + ":" <= text
    ensures p == q || p + ":" <= q || q + ":" <= p
  {
    var a, b := p + ":", q + ":";
    if |p| < |q| {
      assert q == b[..|q|] == text[..|q|];
    } else {
      assert p == a[..|p|] == text[..|p|];
      if |p| == |q| { assert q == b[..|q|] == text[..|q|]; }
    }
  }

  lemma MentionsNoOther(w: World, files: seq<string>, p: string, e: Message)
    requires Separated(files) && p in files && e.About? && e.path in files && Mentions(w, e, p)
    ensures e.path == p
  {
    OneBeginsTheOther(p, e.path, Text(w, e));
  }

  /** Before its verdict, a candidate is mentioned exactly by its own findings. */
  lemma MentionedByItself(w: World, files: seq<string>, p: string, n: nat)
    requires Separated(files) && n < |Candidates(w, files)| && p == Candidates(w, files)[n]
    requires p !in Candidates(w, files)[..n]
    ensures var cands := Candidates(w, files);
            var before := LineReport(w, files) + Each(cands, p => RouteFindings(w, p)) + Each(cands, p => ProbeFindings(w, p))
                          + Each(cands[..n], p => FinalFindings(w, p));
            Mentioned(w, before, p) <==> RouteFindings(w, p) != [] || ProbeFindings(w, p) != []
  {
    var cands := Candidates(w, files);
    var R, P, F := p => RouteFindings(w, p), p => ProbeFindings(w, p), p => FinalFindings(w, p);
    CandidatesAre(w, files);
    assert p in cands && IsCandidate(w, p);
    InLineReport(w, files);
    InEach(cands, R);
    InEach(cands, P);
    InEach(cands[..n], F);
    var before := LineReport(w, files) + Each(cands, R) + Each(cands, P) + Each(cands[..n], F);
    if R(p) != [] || P(p) != [] {
      var e :| (e in Each(cands, R) || e in Each(cands, P)) && e.About? && e.path == p;
      MentionsItself(w, p, e.note);
      assert e in before;
    } else if Mentioned(w, before, p) {
      var e :| e in before && Mentions(w, e, p);
      assert forall q <- cands[..n] :: q in cands;
      MentionsNoOther(w, files, p, e);
    }
  }

  ghost predicate Distinct(files: seq<string>) {
    forall i, j | 0 <= i < j < |files| :: files[i] != files[j]
  }

  lemma {:induction false} CandidatesDistinct(w: World, files: seq<string>)
    requires Distinct(files)
    ensures Distinct(Candidates(w, files))
  {
    if files != [] {
      var n := |files| - 1;
      CandidatesDistinct(w, files[..n]);
      CandidatesAre(w, files[..n]);
      assert files[n] !in files[..n];
    }
  }

  // ----- The theorem -----

  lemma PreliminaryAlone(w: World, one: Single, files: seq<string>)
    requires Independent(w.count, one)
    ensures var cands := Candidates(w, files);
            Preliminary(w, files) ==
              LineReport(w, files) + Each(cands, p => RouteFindings(w, p)) + Each(cands, p => ProbeFindings(w, p))
  {
    var cands, r := Candidates(w, files), RoutesOf(w, files);
    forall p <- cands
      ensures RouteNotes(r, p) == RouteFindings(w, p) && ProbeNotes(w, r, cands, p) == ProbeFindings(w, p)
    {
      FoundAlone(w, one, files, p, false);
    }
    EachEqual(cands, p => RouteNotes(r, p), p => RouteFindings(w, p));
    EachEqual(cands, p => ProbeNotes(w, r, cands, p), p => ProbeFindings(w, p));
  }

  ghost predicate VerdictIs(w: World, v: Verdict, F: Findings, cands: seq<string>, start: seq<Message>, i: nat) {
    i < |cands| && v(cands[i], Mentioned(w, start + Each(cands[..i], F), cands[i])) == F(cands[i])
  }

  lemma EachNext(cands: seq<string>, n: nat, F: Findings)
    requires 0 < n <= |cands|
    ensures Each(cands[..n], F) == Each(cands[..n - 1], F) + Tagged(cands[n - 1], F(cands[n - 1]))
  {
    assert cands[..n][..n - 1] == cands[..n - 1];
  }

  lemma {:induction false} VerdictsFollow(w: World, v: Verdict, F: Findings, cands: seq<string>, n: nat, start: seq<Message>)
    requires n <= |cands| && forall i | 0 <= i < n :: VerdictIs(w, v, F, cands, start, i)
    ensures WithVerdicts(w, v, cands, n, start) == start + Each(cands[..n], F)
  {
    if n == 0 {
      assert start + [] == start;
    } else {
      VerdictsFollow(w, v, F, cands, n - 1, start);
      assert VerdictIs(w, v, F, cands, start, n - 1);
      EachNext(cands, n, F);
      var before := WithVerdicts(w, v, cands, n - 1, start);
      assert WithVerdicts(w, v, cands, n, start) ==
             before + Tagged(cands[n - 1], v(cands[n - 1], Mentioned(w, before, cands[n - 1])));
    }
  }

  lemma VerdictsAlone(w: World, one: Single, files: seq<string>)
    requires Independent(w.count, one) && Separated(files) && Distinct(files)
    ensures var cands := Candidates(w, files);
            WithVerdicts(w, VerdictOf(w, files), cands, |cands|, Preliminary(w, files)) ==
              LineReport(w, files) + Each(cands, p => RouteFindings(w, p)) + Each(cands, p => ProbeFindings(w, p))
              + Each(cands, p => FinalFindings(w, p))
  {
    var cands, v, F := Candidates(w, files), VerdictOf(w, files), p => FinalFindings(w, p);
    PreliminaryAlone(w, one, files);
    CandidatesDistinct(w, files);
    var start := Preliminary(w, files);
    forall i | 0 <= i < |cands|
      ensures VerdictIs(w, v, F, cands, start, i)
    {
      var p := cands[i];
      MentionedByItself(w, files, p, i);
      FoundAlone(w, one, files, p, RouteFindings(w, p) != [] || ProbeFindings(w, p) != []);
    }
    VerdictsFollow(w, v, F, cands, |cands|, start);
    assert cands[..|cands|] == cands;
  }

  function OwnErrors(w: World, p: string): multiset<Message> {
    Own(w, p => RouteFindings(w, p), p => ProbeFindings(w, p), p => FinalFindings(w, p), p)
  }

  lemma ErrorsAreTotal(w: World, one: Single, files: seq<string>)
    requires Independent(w.count, one) && LocallyCounted(w, one) && Separated(files) && Distinct(files)
    ensures multiset(Errors(w, files)) == Total(files, p => OwnErrors(w, p))
  {
    var cands := Candidates(w, files);
    var R, P, F := p => RouteFindings(w, p), p => ProbeFindings(w, p), p => FinalFindings(w, p);
    ReportIsTotal(w, files, R, P, F);
    TotalEqual(files, p => Own(w, R, P, F, p), p => OwnErrors(w, p));
    if cands != [] {
      VerdictsAlone(w, one, files);
      CandidatesAre(w, files);
      var p := cands[0];
      assert p in cands && IsCandidate(w, p);
      assert Lookup(Locals(w, files), p) == one(p, [LOCAL_METHOD]);
    }
  }

  lemma {:induction false} TotalEqual(files: seq<string>, f: string -> multiset<Message>, g: string -> multiset<Message>)
    requires forall p <- files :: f(p) == g(p)
    ensures Total(files, f) == Total(files, g)
  {
    if files != [] { TotalEqual(files[..|files| - 1], f, g); }
  }

  /**
    With counters that answer for each file by itself, local counts for all, and paths that
    are distinct and separated, the errors of a batch are those of its files checked alone.
  */
  lemma GroupingIsInvisible(w: World, one: Single, files: seq<string>)
    requires Independent(w.count, one) && LocallyCounted(w, one) && Separated(files) && Distinct(files)
    ensures multiset(Errors(w, files)) == Total(files, p => multiset(Errors(w, [p])))
  {
    ErrorsAreTotal(w, one, files);
    forall p <- files ensures OwnErrors(w, p) == multiset(Errors(w, [p])) {
      ErrorsAreTotal(w, one, [p]);
      assert [p][..0] == [];
      assert Total([p], p => OwnErrors(w, p)) == OwnErrors(w, p);
    }
    TotalEqual(files, p => OwnErrors(w, p), p => multiset(Errors(w, [p])));
  }

  function OwnWarnings(w: World, f: Findings, p: string): multiset<Message> {
    if IsCandidate(w, p) then multiset(Tagged(p, f(p))) else multiset{}
  }

  lemma {:induction false} WarningsAreTotal(w: World, files: seq<string>, f: Findings)
    ensures multiset(Each(Candidates(w, files), f)) == Total(files, p => OwnWarnings(w, f, p))
  {
    if files != [] {
      var n := |files| - 1;
      WarningsAreTotal(w, files[..n], f);
      CandidatesNext(w, files, f);
    }
  }

  lemma WarnedAlone(w: World, one: Single, files: seq<string>)
    requires Independent(w.count, one) && LocallyCounted(w, one)
    ensures WarningsOf(w, files) == Each(Candidates(w, files), p => WarningFindings(w, p))
  {
    var r, cands := RoutesOf(w, files), Candidates(w, files);
    forall p <- cands ensures VerdictWarnings(w, r, cands, p) == WarningFindings(w, p) { FoundAlone(w, one, files, p, false); }
    EachEqual(cands, p => VerdictWarnings(w, r, cands, p), p => WarningFindings(w, p));
    if cands != [] {
      CandidatesAre(w, files);
      var p := cands[0];
      assert p in cands && IsCandidate(w, p) && Lookup(Locals(w, files), p) == one(p, [LOCAL_METHOD]);
    }
  }

  /** So are its warnings, whatever the paths. */
  lemma GroupingWarnsAlike(w: World, one: Single, files: seq<string>)
    requires Independent(w.count, one) && LocallyCounted(w, one)
    ensures multiset(WarningsOf(w, files)) == Total(files, p => multiset(WarningsOf(w, [p])))
  {
    var f := p => WarningFindings(w, p);
    WarnedAlone(w, one, files);
    WarningsAreTotal(w, files, f);
    forall p <- files ensures multiset(WarningsOf(w, [p])) == OwnWarnings(w, f, p) {
      WarnedAlone(w, one, [p]);
      WarningsAreTotal(w, [p], f);
      assert [p][..0] == [];
      assert Total([p], p => OwnWarnings(w, f, p)) == OwnWarnings(w, f, p);
    }
    TotalEqual(files, p => OwnWarnings(w, f, p), p => multiset(WarningsOf(w, [p])));
  }

  // ----- Why the paths must be separated -----

  const CHAIN: seq<string> := ["gpt-4"]
  const LOCAL_COUNT := Measured(1, "local", TIKTOKEN)

  /** Two files and one rule for both, whose chain never answers; the second file is too long. */
  function Silent(short: string, long: string): World {
    World(
      Policy([Rule("*", false, Limits(None, Null, Null, Arr([Str("gpt-4")])))], [], Null, (p, q) => true,
             (j: Json) => if j.Str? then j.s else ""),
      Tree(p => p == short || p == long, p => if p == long then DEFAULT_MAX_LINES + 1 else 1, p => None, p => p),
      (paths, chain) => if chain == [LOCAL_METHOD] then map p <- paths :: LOCAL_COUNT else map[],
      None, note => "")
  }

  const TOO_LONG := TooManyLines(DEFAULT_MAX_LINES + 1, DEFAULT_MAX_LINES)

  lemma SilentRoute(w: World, short: string, long: string, locals: map<string, Measured>)
    requires w == Silent(short, long) && short in locals
    ensures RouteOf(w, locals, short) == Direct(CHAIN)
  {
    assert GetLimits(w.policy, short) == Some(Limits(None, Null, Null, Arr([Str("gpt-4")])));
    assert NonBlank(w.policy, [Str("gpt-4")]) == CHAIN by { assert [Str("gpt-4")][1..] == []; }
    assert ProviderFamilies(CHAIN) == {};
  }

  lemma SilentFindings(w: World, short: string, long: string, files: seq<string>, mentioned: bool)
    requires w == Silent(short, long) && Candidates(w, files) == [short]
    ensures var r := RoutesOf(w, files);
            && RouteNotes(r, short) == [] && ProbeNotes(w, r, [short], short) == []
            && VerdictNotes(w, r, [short], short, mentioned) == if mentioned then [] else [CountUnavailable]
  {
    var r := RoutesOf(w, files);
    assert Locals(w, files) == map[short := LOCAL_COUNT];
    SilentRoute(w, short, long, Locals(w, files));
    assert CHAIN[0] != [LOCAL_METHOD][0];
    assert Answer(w, r, [short], short) == None;
  }

  lemma OneCandidate(w: World, files: seq<string>, p: string)
    requires Candidates(w, files) == [p] && p in Locals(w, files)
    requires RouteNotes(RoutesOf(w, files), p) == [] && ProbeNotes(w, RoutesOf(w, files), [p], p) == []
    ensures var lines := LineReport(w, files);
            Errors(w, files) ==
            lines + Tagged(p, VerdictNotes(w, RoutesOf(w, files), [p], p, Mentioned(w, lines, p)))
  {
    var r, v, lines := RoutesOf(w, files), VerdictOf(w, files), LineReport(w, files);
    EachEmpty([p], q => RouteNotes(r, q));
    EachEmpty([p], q => ProbeNotes(w, r, [p], q));
    assert Preliminary(w, files) == lines;
    assert WithVerdicts(w, v, [p], 0, lines) == lines;
    assert WithVerdicts(w, v, [p], 1, lines) == lines + Tagged(p, v(p, Mentioned(w, lines, p)));
  }

  lemma SilentErrors(w: World, short: string, long: string, files: seq<string>)
    requires w == Silent(short, long) && Candidates(w, files) == [short]
    ensures Errors(w, files) ==
            LineReport(w, files) + if Mentioned(w, LineReport(w, files), short) then [] else [About(short, CountUnavailable)]
  {
    SilentFindings(w, short, long, files, Mentioned(w, LineReport(w, files), short));
    assert Locals(w, files) == map[short := LOCAL_COUNT];
    OneCandidate(w, files, short);
    assert [CountUnavailable][1..] == [];
  }

  lemma SilentLineErrors(w: World, short: string, long: string, p: string)
    requires w == Silent(short, long) && short != long
    ensures LineErrors(w, p) == if p == long then [About(long, TOO_LONG)] else []
    ensures IsCandidate(w, p) <==> p == short
  {}

  lemma {:induction false} SilentReport(w: World, short: string, long: string, files: seq<string>)
    requires w == Silent(short, long) && short != long && Distinct(files)
    ensures Candidates(w, files) == if short in files then [short] else []
    ensures forall e :: e in LineReport(w, files) <==> long in files && e == About(long, TOO_LONG)
    ensures long !in files ==> LineReport(w, files) == []
  {
    if files != [] {
      var n := |files| - 1;
      SilentReport(w, short, long, files[..n]);
      SilentLineErrors(w, short, long, files[n]);
      assert files == files[..n] + [files[n]];
    }
  }

  function SilentSingle(): Single {
    (p, chain) => if chain == [LOCAL_METHOD] then Some(LOCAL_COUNT) else None
  }

  lemma SilentCountsAlone(short: string, long: string)
    ensures Independent(Silent(short, long).count, SilentSingle()) && LocallyCounted(Silent(short, long), SilentSingle())
  {}

  lemma LongerMentionsShorter(w: World, short: string, long: string, note: Note)
    requires short + ":" <= long
    ensures Mentions(w, About(long, note), short)
  {
    assert short + ":" <= long <= Text(w, About(long, note));
  }

  lemma ShortIsReportedAlone(w: World, short: string, long: string)
    requires w == Silent(short, long) && short != long
    ensures Errors(w, [short]) == [About(short, CountUnavailable)]
  {
    SilentReport(w, short, long, [short]);
    SilentErrors(w, short, long, [short]);
  }

  lemma ShortIsHidden(w: World, short: string, long: string, files: seq<string>)
    requires w == Silent(short, long) && short != long && Distinct(files) && short in files && long in files
    requires short + ":" <= long
    ensures About(short, CountUnavailable) !in Errors(w, files)
  {
    SilentReport(w, short, long, files);
    SilentErrors(w, short, long, files);
    LongerMentionsShorter(w, short, long, TOO_LONG);
    assert About(long, TOO_LONG) in LineReport(w, files);
  }

  /** Wherever one path and a colon begin another, some independent counters make the batch lose the first file's error. */
  lemma UnseparatedPathsHideErrors(files: seq<string>, short: string, long: string)
    requires Distinct(files) && short in files && long in files && short != long && short + ":" <= long
    ensures var w := Silent(short, long);
            && Errors(w, [short]) == [About(short, CountUnavailable)]
            && About(short, CountUnavailable) !in Errors(w, files)
  {
    ShortIsReportedAlone(Silent(short, long), short, long);
    ShortIsHidden(Silent(short, long), short, long, files);
  }

  lemma {:induction false} TotalHolds(files: seq<string>, f: string -> multiset<Message>, p: string)
    requires p in files
    ensures f(p) <= Total(files, f)
  {
    var n := |files| - 1;
    assert files == files[..n] + [files[n]];
    if p != files[n] {
      TotalHolds(files[..n], f, p);
    }
  }

  /** The batch reports what the files report alone. */
  ghost predicate IsInvisible(w: World, files: seq<string>) {
    multiset(Errors(w, files)) == Total(files, p => multiset(Errors(w, [p])))
  }

  /** Grouping distinct files is invisible for all independent counters exactly if their paths are separated. */
  lemma GroupingIsInvisibleIff(files: seq<string>)
    requires Distinct(files)
    ensures (forall w: World, one: Single | Independent(w.count, one) && LocallyCounted(w, one) :: IsInvisible(w, files))
       <==> Separated(files)
  {
    if Separated(files) {
      forall w: World, one: Single | Independent(w.count, one) && LocallyCounted(w, one) ensures IsInvisible(w, files) {
        GroupingIsInvisible(w, one, files);
      }
    } else {
      var short, long :| short in files && long in files && short != long && short + ":" <= long;
      var w, e := Silent(short, long), About(short, CountUnavailable);
      SilentCountsAlone(short, long);
      UnseparatedPathsHideErrors(files, short, long);
      TotalHolds(files, p => multiset(Errors(w, [p])), short);
      assert e in multiset(Errors(w, [short]));
      assert e !in multiset(Errors(w, files));
      assert !IsInvisible(w, files);
    }
  }
}
