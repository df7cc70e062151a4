/**
  check_files: a batch of files against line limits and token limits, with a local screen,
  recorded provider counts and live provider counts.

  Messages are kept as data. What the program compares as text, an error's beginning with a
  path and a colon, is compared on the text a message is rendered to.
*/
module FileCheck {
  import opened FileLimits
  import opened Values

  datatype Measured = Measured(tokens: int, how: string, family: string)

  /** A recorded provider count. */
  datatype Entry = Entry(sha256: string, via: string, family: string, tokens: Json)

  datatype CacheState = Missing | Unreadable | Stale | MethodMismatch | Malformed | Current | Disabled

  datatype Note =
    | TooManyLines(lines: int, max: int)
    | LocalUnavailable
    | NoLocalTarget
    | AuthoritativeUnavailable(state: CacheState, recovery: bool)
    | CountUnavailable
    | OverLimit(tokens: int, limit: int, how: string)
    | OverTarget(tokens: int, target: int, how: string)
    | Unenforced(family: string, how: string)
    | CacheNotCurrent(state: CacheState)

  datatype Message = About(path: string, note: Note) | NoLocalCounts(candidates: nat)

  /** What one pass sees of the checkout; digest is None for a file that cannot be read. */
  datatype Tree = Tree(exists_: string -> bool, lines: string -> int, digest: string -> Option<string>, key: string -> string)

  /** One counter process: the counts it gives for some files and a method chain. */
  type Counter = (seq<string>, seq<string>) -> map<string, Measured>

  datatype World = World(
    policy: Policy, tree: Tree, count: Counter, cache: Option<map<string, Entry>>, body: Note -> string)

  /** A counter process reports on the files it was given and no others. */
  ghost predicate Obedient(count: Counter) {
    forall paths, chain :: forall p <- count(paths, chain) :: p in paths
  }

  function Text(w: World, m: Message): string {
    match m
    case About(path, note) => path + ": " + w.body(note)
    case NoLocalCounts(_) => "token counter failed: no local counts returned"
  }

  predicate Mentions(w: World, m: Message, path: string) {
    path + ":" <= Text(w, m)
  }

  // ----- One file -----

  function LineErrors(w: World, path: string): seq<Message> {
    var limits := GetLimits(w.policy, path);
    if !IsWhitelisted(w.policy, path) || limits.None? || !w.tree.exists_(path) then []
    else
      var max := if limits.value.maxLines.Some? then limits.value.maxLines.value else DEFAULT_MAX_LINES;
      if w.tree.lines(path) > max then [About(path, TooManyLines(w.tree.lines(path), max))] else []
  }

  predicate IsCandidate(w: World, path: string) {
    && LineErrors(w, path) == []
    && IsWhitelisted(w.policy, path)
    && GetLimits(w.policy, path).Some?
    && w.tree.exists_(path)
  }

  function CachedMeasurement(w: World, path: string, methods: seq<string>, cache: map<string, Entry>)
    : (r: (Option<Measured>, CacheState))
    ensures r.0.Some? <==> r.1 == Current
  {
    var key := w.tree.key(path);
    if key !in cache then (None, Missing)
    else if w.tree.digest(path).None? then (None, Unreadable)
    else
      var e := cache[key];
      if e.sha256 != w.tree.digest(path).value then (None, Stale)
      else if e.via !in methods || FamilyOf(e.via) != Some(e.family) then (None, MethodMismatch)
      else if !e.tokens.Int? then (None, Malformed)
      else (Some(Measured(e.tokens.n, "cached provider count (" + e.via + ")", e.family)), Current)
  }

  function OverLimits(limits: Limits, m: Measured): seq<Note> {
    var max := LimitFor(limits.max, m.family);
    if max.Some? && m.tokens > max.value then [OverLimit(m.tokens, max.value, m.how)] else []
  }

  function Warnings(limits: Limits, m: Measured): seq<Note> {
    var max, target := LimitFor(limits.max, m.family), LimitFor(limits.target, m.family);
    if max.None? then
      if m.tokens > 0 then [Unenforced(m.family, m.how)] else []
    else if m.tokens > max.value then []
    else if target.Some? && m.tokens > target.value then [OverTarget(m.tokens, target.value, m.how)]
    else []
  }

  /** Where a candidate's count comes from. */
  datatype Route =
    | Unlimited | NoLocal | NoTarget | Screened
    | Local(m: Measured)
    | Cached(m: Measured)
    | Direct(chain: seq<string>)
    | Probe(chain: seq<string>, state: CacheState)

  function RouteOf(w: World, locals: map<string, Measured>, path: string): Route {
    if GetLimits(w.policy, path).None? then Unlimited
    else
      var limits := GetLimits(w.policy, path).value;
      var methods := Methods(w.policy, limits);
      if path !in locals then NoLocal
      else if ProviderFamilies(methods) == {} then
        if methods == [LOCAL_METHOD] then Local(locals[path]) else Direct(methods)
      else if ProbeThreshold(limits).None? then NoTarget
      else if locals[path].tokens <= ProbeThreshold(limits).value then Screened
      else if w.cache.None? then Probe(methods, Disabled)
      else
        var (cached, state) := CachedMeasurement(w, path, methods, w.cache.value);
        if cached.Some? then Cached(cached.value) else Probe(methods, state)
  }

  // ----- A batch -----

  function Candidates(w: World, files: seq<string>): seq<string> {
    if files == [] then []
    else
      var last := files[|files| - 1];
      Candidates(w, files[..|files| - 1]) + if IsCandidate(w, last) then [last] else []
  }

  function Locals(w: World, files: seq<string>): map<string, Measured> {
    w.count(Candidates(w, files), [LOCAL_METHOD])
  }

  /** The routes of a batch, as a function of the path. */
  type Routes = string -> Route

  function RoutesOf(w: World, files: seq<string>): Routes {
    var locals := Locals(w, files);
    p => RouteOf(w, locals, p)
  }

  predicate InGroup(route: Route, chain: seq<string>, live: bool) {
    match route
    case Direct(c) => c == chain && !live
    case Probe(c, _) => c == chain && live
    case _ => false
  }

  /** The candidates that share one counter process. */
  function Group(r: Routes, paths: seq<string>, chain: seq<string>, live: bool): seq<string> {
    if paths == [] then []
    else
      var last := paths[|paths| - 1];
      Group(r, paths[..|paths| - 1], chain, live) + if InGroup(r(last), chain, live) then [last] else []
  }

  function Lookup<V>(m: map<string, V>, path: string): Option<V> {
    if path in m then Some(m[path]) else None
  }

  /** What the counter process of the candidate's group says of it. */
  function Answer(w: World, r: Routes, paths: seq<string>, path: string): Option<Measured> {
    match r(path)
    case Direct(chain) => Lookup(w.count(Group(r, paths, chain, false), chain), path)
    case Probe(chain, _) => Lookup(w.count(Group(r, paths, chain, true), chain), path)
    case _ => None
  }

  const UNLIMITED := Limits(None, Null, Null, Null)

  function LimitsOf(w: World, path: string): Limits {
    var limits := GetLimits(w.policy, path);
    if limits.Some? then limits.value else UNLIMITED
  }

  predicate Authoritative(w: World, path: string, m: Measured) {
    m.family in ProviderFamilies(Methods(w.policy, LimitsOf(w, path)))
  }

  /** The count a candidate is judged by. */
  function Judged(w: World, r: Routes, paths: seq<string>, path: string): Option<Measured> {
    var answer := Answer(w, r, paths, path);
    match r(path)
    case Local(m) => Some(m)
    case Cached(m) => Some(m)
    case Direct(_) => answer
    case Probe(_, _) => if answer.Some? && Authoritative(w, path, answer.value) then answer else None
    case _ => None
  }

  function RouteNotes(r: Routes, path: string): seq<Note> {
    match r(path)
    case NoLocal => [LocalUnavailable]
    case NoTarget => [NoLocalTarget]
    case _ => []
  }

  function ProbeNotes(w: World, r: Routes, paths: seq<string>, path: string): seq<Note> {
    var route := r(path);
    if route.Probe? && Judged(w, r, paths, path).None? then [AuthoritativeUnavailable(route.state, w.cache.Some?)] else []
  }

  function VerdictNotes(w: World, r: Routes, paths: seq<string>, path: string, mentioned: bool): seq<Note> {
    var route, judged := r(path), Judged(w, r, paths, path);
    if route.Screened? || route.Unlimited? then []
    else if judged.None? then
      if mentioned then [] else [CountUnavailable]
    else
      var over := OverLimits(LimitsOf(w, path), judged.value);
      over + if route.Probe? && w.cache.Some? && over == [] then [CacheNotCurrent(route.state)] else []
  }

  function VerdictWarnings(w: World, r: Routes, paths: seq<string>, path: string): seq<Note> {
    var route, judged := r(path), Judged(w, r, paths, path);
    if route.Screened? || route.Unlimited? || judged.None? then []
    else Warnings(LimitsOf(w, path), judged.value)
  }

  function Tagged(path: string, notes: seq<Note>): seq<Message> {
    if notes == [] then [] else [About(path, notes[0])] + Tagged(path, notes[1..])
  }

  function Each(paths: seq<string>, notes: string -> seq<Note>): seq<Message> {
    if paths == [] then []
    else
      var last := paths[|paths| - 1];
      Each(paths[..|paths| - 1], notes) + Tagged(last, notes(last))
  }

  predicate Mentioned(w: World, errors: seq<Message>, path: string) {
    exists e <- errors :: Mentions(w, e, path)
  }

  function LineReport(w: World, files: seq<string>): seq<Message> {
    if files == [] then []
    else LineReport(w, files[..|files| - 1]) + LineErrors(w, files[|files| - 1])
  }

  /** The errors before the verdicts. */
  function Preliminary(w: World, files: seq<string>): seq<Message> {
    var cands, r := Candidates(w, files), RoutesOf(w, files);
    LineReport(w, files) + Each(cands, p => RouteNotes(r, p)) + Each(cands, p => ProbeNotes(w, r, cands, p))
  }

  /** A finding on a file, given whether an earlier error mentions it. */
  type Verdict = (string, bool) -> seq<Note>

  function VerdictOf(w: World, files: seq<string>): Verdict {
    var r, cands := RoutesOf(w, files), Candidates(w, files);
    (p, mentioned) => VerdictNotes(w, r, cands, p, mentioned)
  }

  /** The verdicts on the first candidates, each seeing all errors before it. */
  function WithVerdicts(w: World, v: Verdict, cands: seq<string>, n: nat, errors: seq<Message>): seq<Message>
    requires n <= |cands|
  {
    if n == 0 then errors
    else
      var before := WithVerdicts(w, v, cands, n - 1, errors);
      before + Tagged(cands[n - 1], v(cands[n - 1], Mentioned(w, before, cands[n - 1])))
  }

  function Errors(w: World, files: seq<string>): seq<Message> {
    var cands, locals := Candidates(w, files), Locals(w, files);
    if cands == [] then LineReport(w, files)
    else if locals == map[] then LineReport(w, files) + [NoLocalCounts(|cands|)]
    else WithVerdicts(w, VerdictOf(w, files), cands, |cands|, Preliminary(w, files))
  }

  function WarningsOf(w: World, files: seq<string>): seq<Message> {
    var cands, locals := Candidates(w, files), Locals(w, files);
    if cands == [] || locals == map[] then []
    else
      var r := RoutesOf(w, files);
      Each(cands, p => VerdictWarnings(w, r, cands, p))
  }
}
