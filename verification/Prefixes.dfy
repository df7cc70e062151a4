/** The bounded ancestry walk of native-history admission: select_prefixes and _read_prefix. */
module Prefixes {
  import opened Values
  import opened Admission
  import opened Records

  type Bytes = seq<bv8>

  const NEWLINE: bv8 := 10
  const MAX_FILES: nat := 2
  const MAX_BYTES: int := 2_000_000

  /**
   * What the walk reads: the identity pattern, the rollout search, each file's type and links, what one read
   * of it yields (None when it changes meanwhile or cannot be opened), and the parse of a prefix into
   * records (None when a line is not a record).
   */
  datatype World = World(
    isThread: string -> bool, rollouts: string -> seq<string>, isPlain: string -> bool,
    content: string -> Option<Bytes>, parse: Bytes -> Option<seq<Row>>)

  /** What a descendant asks of the next file: a thread, a byte length and a record count. */
  datatype Ask = Ask(thread: string, end: Option<int>, ordinal: Option<int>)

  datatype Job = Job(
    source: string, end: Option<int>, stop: Option<map<string, Json>>, maxBytes: int := MAX_BYTES, maxFiles: nat := MAX_FILES)

  datatype Prefix = Prefix(thread: string, path: string, data: Bytes)

  datatype Ancestry = Root | Child(ask: Ask) | Inconsistent

  datatype Outcome<+T> = Ok(value: T) | Error(why: string)

  predicate IsComplete(data: Bytes) {
    data != [] && data[|data| - 1] == NEWLINE
  }

  /** The bytes asked for: the declared length, or the whole file. */
  predicate Covers(data: Bytes, content: Bytes, end: Option<int>) {
    data <= content && match end case Some(n) => |data| == n case None => data == content
  }

  /** The first record names this thread and a known history format. */
  predicate IsMeta(row: Row, thread: string) {
    && row.kind == Str("session_meta")
    && Field(row.payload, "id") == Str(thread) && Field(row.payload, "session_id") == Str(thread)
    && Field(row.payload, "cli_version") == Str("0.162.1") && Field(row.payload, "history_mode") == Str("paginated")
  }

  /** A root declares no base and no fork; a fork declares one consistent base and nothing else in it. */
  function AncestryOf(meta: map<string, Json>): Ancestry {
    var base := Field(meta, "history_base");
    if base == Null then
      if Field(meta, "forked_from_id") == Null && Field(meta, "forked_from_ordinal_exclusive") == Null then Root
      else Inconsistent
    else if !base.Obj? || base.fields.Keys != {"thread_id", "end_ordinal_exclusive", "end_byte_offset"} then Inconsistent
    else
      var parent, ordinal, end :=
        base.fields["thread_id"], base.fields["end_ordinal_exclusive"], base.fields["end_byte_offset"];
      if parent.Str? && ordinal.Int? && end.Int? && ordinal.n > 0 && end.n > 0
        && Field(meta, "forked_from_id") == parent
        && SameValue(Field(meta, "forked_from_ordinal_exclusive"), ordinal)
      then Child(Ask(parent.s, Some(end.n), Some(ordinal.n)))
      else Inconsistent
  }

  /** The records of a prefix; none where the parse fails. */
  function Rows(w: World, p: Prefix): seq<Row> {
    match w.parse(p.data) case Some(rows) => rows case None => []
  }

  function Origin(w: World, p: Prefix): Ancestry {
    var rows := Rows(w, p);
    if rows == [] then Inconsistent else AncestryOf(rows[0].payload)
  }

  /** p is the one sound prefix that this request designates. */
  ghost predicate Answers(w: World, ask: Ask, stop: Option<map<string, Json>>, p: Prefix) {
    && w.isThread(ask.thread) && p.thread == ask.thread
    && w.rollouts(ask.thread) == [p.path] && w.isPlain(p.path)
    && w.content(p.path).Some? && Covers(p.data, w.content(p.path).value, ask.end) && IsComplete(p.data)
    && IsSound(w, ask, stop, p)
  }

  /** What the records of a read prefix must satisfy. */
  ghost predicate IsSound(w: World, ask: Ask, stop: Option<map<string, Json>>, p: Prefix) {
    var rows := Rows(w, p);
    && rows != [] && (ask.ordinal.Some? ==> |rows| == ask.ordinal.value)
    && IsMeta(rows[0], ask.thread) && Admissible(rows, stop, p.path)
  }

  function Size(chain: seq<Prefix>): nat {
    if chain == [] then 0 else Size(chain[..|chain| - 1]) + |chain[|chain| - 1].data|
  }

  function First(job: Job): Ask {
    Ask(job.source, job.end, None)
  }

  /** The walk as a chain problem: what answers a request, what a prefix declares, and the budgets. */
  datatype Walk = Walk(
    answers: (Ask, bool, Prefix) -> bool, origin: Prefix -> Ancestry, first: Ask, maxBytes: int, maxFiles: nat)

  /** Only the first link faces the hook event. */
  ghost function WalkOf(w: World, job: Job): Walk {
    Walk((ask, first, p) => Answers(w, ask, if first then job.stop else None, p), p => Origin(w, p),
      First(job), job.maxBytes, job.maxFiles)
  }

  predicate Distinct(chain: seq<Prefix>) {
    forall i, j :: 0 <= i < j < |chain| ==> chain[i].thread != chain[j].thread
  }

  /** Link i answers what its descendant declares. */
  predicate LinkAt(k: Walk, chain: seq<Prefix>, i: int)
    requires 0 <= i < |chain|
  {
    if i == 0 then k.answers(k.first, true, chain[0])
    else k.origin(chain[i - 1]).Child? && k.answers(k.origin(chain[i - 1]).ask, false, chain[i])
  }

  /** A chain so far: every link is in place, within both budgets. */
  predicate IsPath(k: Walk, chain: seq<Prefix>) {
    && |chain| <= k.maxFiles && (chain != [] ==> Size(chain) <= k.maxBytes) && Distinct(chain)
    && forall i :: 0 <= i < |chain| ==> LinkAt(k, chain, i)
  }

  /** A well-formed ancestry: a path down to a root. */
  predicate IsAncestry(k: Walk, chain: seq<Prefix>) {
    chain != [] && IsPath(k, chain) && k.origin(chain[|chain| - 1]).Root?
  }

  ghost predicate Decides(k: Walk) {
    forall ask, first, p, q :: k.answers(ask, first, p) && k.answers(ask, first, q) ==> p == q
  }

  lemma AnswerIsUnique(w: World, ask: Ask, stop: Option<map<string, Json>>, p: Prefix, q: Prefix)
    requires Answers(w, ask, stop, p) && Answers(w, ask, stop, q)
    ensures p == q
  {
    assert [p.path][0] == [q.path][0];
  }

  lemma WalkDecides(w: World, job: Job)
    ensures Decides(WalkOf(w, job))
  {
    var k := WalkOf(w, job);
    forall ask, first, p, q | k.answers(ask, first, p) && k.answers(ask, first, q) ensures p == q {
      AnswerIsUnique(w, ask, if first then job.stop else None, p, q);
    }
  }

  lemma {:induction false} SizeGrows(chain: seq<Prefix>, n: nat)
    requires n <= |chain|
    ensures Size(chain[..n]) <= Size(chain)
    decreases |chain| - n
  {
    if n < |chain| {
      SizeGrows(chain, n + 1);
      assert chain[..n + 1][..n] == chain[..n];
    } else {
      assert chain[..n] == chain;
    }
  }

  /** Two paths agree as far as both go. */
  lemma {:induction false} PathsAgree(k: Walk, a: seq<Prefix>, b: seq<Prefix>, n: nat)
    requires Decides(k) && IsPath(k, a) && IsPath(k, b)
    requires n <= |a| && n <= |b|
    ensures a[..n] == b[..n]
  {
    if n > 0 {
      PathsAgree(k, a, b, n - 1);
      assert LinkAt(k, a, n - 1) && LinkAt(k, b, n - 1);
      if n > 1 {
        assert a[n - 2] == a[..n - 1][n - 2] == b[n - 2];
      }
    }
  }

  /** The longer of two paths extends the shorter, whose last link must then declare a base. */
  lemma LongerExtends(k: Walk, a: seq<Prefix>, b: seq<Prefix>)
    requires Decides(k) && IsPath(k, a) && IsPath(k, b) && 0 < |a| <= |b|
    ensures b[..|a|] == a && (b == a || k.origin(a[|a| - 1]).Child?)
  {
    PathsAgree(k, a, b, |a|);
    assert a[..|a|] == a;
    if |a| < |b| {
      assert LinkAt(k, b, |a|);
      assert a[|a| - 1] == b[|a| - 1];
    } else {
      assert b[..|b|] == b;
    }
  }

  /** A path whose last link declares a base is a proper prefix of every ancestry. */
  lemma AncestryLength(k: Walk, path: seq<Prefix>, chain: seq<Prefix>)
    requires Decides(k) && IsPath(k, path) && IsAncestry(k, chain)
    requires path != [] ==> k.origin(path[|path| - 1]).Child?
    ensures |path| < |chain| && chain[..|path|] == path
  {
    if path != [] {
      if |path| <= |chain| {
        LongerExtends(k, path, chain);
      } else {
        LongerExtends(k, chain, path);
      }
    }
  }

  /** The chain is unique: two rollout histories can never both answer one request. */
  lemma AncestryIsUnique(w: World, job: Job, a: seq<Prefix>, b: seq<Prefix>)
    requires IsAncestry(WalkOf(w, job), a) && IsAncestry(WalkOf(w, job), b)
    ensures a == b
  {
    var k := WalkOf(w, job);
    WalkDecides(w, job);
    if |a| <= |b| {
      LongerExtends(k, a, b);
    } else {
      LongerExtends(k, b, a);
    }
  }

  lemma BrokenPathLeadsNowhere(k: Walk, path: seq<Prefix>, chain: seq<Prefix>)
    requires Decides(k) && IsPath(k, path) && path != [] && k.origin(path[|path| - 1]).Inconsistent?
    ensures !IsAncestry(k, chain)
  {
    if IsAncestry(k, chain) {
      if |path| <= |chain| {
        LongerExtends(k, path, chain);
      } else {
        LongerExtends(k, chain, path);
      }
    }
  }

  /** The request that follows a path. */
  function NextAsk(k: Walk, path: seq<Prefix>): Ask
    requires path != [] ==> k.origin(path[|path| - 1]).Child?
  {
    if path == [] then k.first else k.origin(path[|path| - 1]).ask
  }

  /** What an ancestry must hold right after a path that has not reached its root. */
  lemma AncestryContinues(k: Walk, path: seq<Prefix>, chain: seq<Prefix>)
    requires Decides(k) && IsPath(k, path) && IsAncestry(k, chain)
    requires path != [] ==> k.origin(path[|path| - 1]).Child?
    ensures var n := |path|;
      && n < |chain| && n < k.maxFiles && k.answers(NextAsk(k, path), path == [], chain[n])
      && Size(path) + |chain[n].data| <= k.maxBytes
      && forall p <- path :: p.thread != chain[n].thread
  {
    var n := |path|;
    AncestryLength(k, path, chain);
    assert LinkAt(k, chain, n);
    SizeGrows(chain, n + 1);
    assert chain[..n + 1][..n] == path;
    forall p | p in path ensures p.thread != chain[n].thread {
      var i :| 0 <= i < n && path[i] == p;
      assert chain[..n][i] == chain[i];
    }
  }

  lemma PathGrows(k: Walk, path: seq<Prefix>, p: Prefix)
    requires IsPath(k, path) && |path| < k.maxFiles
    requires path != [] ==> k.origin(path[|path| - 1]).Child?
    requires k.answers(NextAsk(k, path), path == [], p) && Size(path) + |p.data| <= k.maxBytes
    requires forall q <- path :: q.thread != p.thread
    ensures IsPath(k, path + [p]) && Size(path + [p]) == Size(path) + |p.data|
  {
    var longer := path + [p];
    assert longer[..|path|] == path;
    forall i | 0 <= i < |longer| ensures LinkAt(k, longer, i) {
      if i < |path| {
        assert LinkAt(k, path, i);
      }
    }
  }

  // ----- The ancestry on the recorded metadata -----

  /** The payload of the first record; empty where there is none. */
  function Meta(w: World, p: Prefix): map<string, Json> {
    if w.parse(p.data).Some? && w.parse(p.data).value != [] then w.parse(p.data).value[0].payload else map[]
  }

  /** The file is the one rollout of its thread, names it in a known format, and its records end soundly. */
  ghost predicate IsFileOf(w: World, p: Prefix, stop: Option<map<string, Json>>) {
    && w.isThread(p.thread) && w.rollouts(p.thread) == [p.path] && w.isPlain(p.path)
    && w.content(p.path).Some? && p.data <= w.content(p.path).value
    && p.data != [] && p.data[|p.data| - 1] == 10
    && w.parse(p.data).Some? && w.parse(p.data).value != []
    && w.parse(p.data).value[0].kind == Str("session_meta")
    && Field(Meta(w, p), "id") == Str(p.thread) && Field(Meta(w, p), "session_id") == Str(p.thread)
    && Field(Meta(w, p), "cli_version") == Str("0.162.1") && Field(Meta(w, p), "history_mode") == Str("paginated")
    && IsSoundLog(w.parse(p.data).value, stop, p.path)
  }

  /** The metadata declares this base: its thread, its length in bytes and its number of records. */
  predicate Declares(meta: map<string, Json>, thread: string, bytes: nat, records: nat) {
    && Field(meta, "history_base") == Obj(map[
         "thread_id" := Str(thread), "end_byte_offset" := Int(bytes), "end_ordinal_exclusive" := Int(records)])
    && Field(meta, "forked_from_id") == Str(thread)
    && Number(Field(meta, "forked_from_ordinal_exclusive")) == Some(records as real)
  }

  predicate DeclaresNothing(meta: map<string, Json>) {
    && Field(meta, "history_base") == Null
    && Field(meta, "forked_from_id") == Null && Field(meta, "forked_from_ordinal_exclusive") == Null
  }

  /** Link i - 1 declares file i by its thread, its bytes and its records. */
  predicate DeclaredAt(w: World, chain: seq<Prefix>, i: int)
    requires 0 < i < |chain|
  {
    && w.parse(chain[i].data).Some?
    && Declares(Meta(w, chain[i - 1]), chain[i].thread, |chain[i].data|, |w.parse(chain[i].data).value|)
  }

  /** The first file is the one asked for, as far as asked for, and each file after it is the one declared. */
  ghost predicate IsDeclaredChain(w: World, job: Job, chain: seq<Prefix>)
    requires chain != []
  {
    && (forall i :: 0 <= i < |chain| ==> IsFileOf(w, chain[i], if i == 0 then job.stop else None))
    && chain[0].thread == job.source
    && (if job.end.Some? then |chain[0].data| == job.end.value else w.content(chain[0].path) == Some(chain[0].data))
    && (forall i :: 0 < i < |chain| ==> DeclaredAt(w, chain, i))
  }

  /** The history a request names: each file declares the next, the last declares nothing, within both budgets. */
  ghost predicate IsHistory(w: World, job: Job, chain: seq<Prefix>) {
    && 0 < |chain| <= job.maxFiles && Size(chain) <= job.maxBytes
    && (forall i, j :: 0 <= i < j < |chain| ==> chain[i].thread != chain[j].thread)
    && IsDeclaredChain(w, job, chain)
    && DeclaresNothing(Meta(w, chain[|chain| - 1]))
  }

  lemma OriginIff(w: World, p: Prefix)
    requires Rows(w, p) != []
    ensures Origin(w, p).Root? <==> DeclaresNothing(Meta(w, p))
    ensures forall thread, bytes: nat, records: nat | bytes > 0 && records > 0 ::
      Origin(w, p) == Child(Ask(thread, Some(bytes), Some(records))) <==> Declares(Meta(w, p), thread, bytes, records)
  {
    var meta := Meta(w, p);
    forall thread, bytes: nat, records: nat | bytes > 0 && records > 0
      ensures Origin(w, p) == Child(Ask(thread, Some(bytes), Some(records))) <==> Declares(meta, thread, bytes, records)
    {
      BaseIff(meta, thread, bytes, records);
    }
  }

  lemma BaseIff(meta: map<string, Json>, thread: string, bytes: nat, records: nat)
    requires bytes > 0 && records > 0
    ensures AncestryOf(meta) == Child(Ask(thread, Some(bytes), Some(records))) <==> Declares(meta, thread, bytes, records)
  {
    var declared := map[
      "thread_id" := Str(thread), "end_byte_offset" := Int(bytes), "end_ordinal_exclusive" := Int(records)];
    assert declared.Keys == {"thread_id", "end_ordinal_exclusive", "end_byte_offset"};
    if AncestryOf(meta) == Child(Ask(thread, Some(bytes), Some(records))) {
      assert Field(meta, "history_base").fields == declared;
    }
  }

  lemma FileIff(w: World, ask: Ask, stop: Option<map<string, Json>>, p: Prefix)
    ensures Answers(w, ask, stop, p) <==>
      && p.thread == ask.thread && IsFileOf(w, p, stop)
      && (if ask.end.Some? then |p.data| == ask.end.value else w.content(p.path) == Some(p.data))
      && (ask.ordinal.Some? ==> |w.parse(p.data).value| == ask.ordinal.value)
  {
    AdmissibleIff(Rows(w, p), stop, p.path);
  }

  lemma LinkIff(w: World, job: Job, chain: seq<Prefix>, i: int)
    requires 0 < i < |chain| && Rows(w, chain[i - 1]) != []
    ensures LinkAt(WalkOf(w, job), chain, i) <==> IsFileOf(w, chain[i], None) && DeclaredAt(w, chain, i)
  {
    var k, p := WalkOf(w, job), chain[i];
    var origin := Origin(w, chain[i - 1]);
    OriginIff(w, chain[i - 1]);
    if origin.Child? {
      FileIff(w, origin.ask, None, p);
    }
  }

  lemma FirstIff(w: World, job: Job, chain: seq<Prefix>)
    requires chain != []
    ensures LinkAt(WalkOf(w, job), chain, 0) <==>
      && IsFileOf(w, chain[0], job.stop) && chain[0].thread == job.source
      && (if job.end.Some? then |chain[0].data| == job.end.value else w.content(chain[0].path) == Some(chain[0].data))
  {
    FileIff(w, First(job), job.stop, chain[0]);
  }

  lemma HaveRows(w: World, job: Job, chain: seq<Prefix>)
    requires IsAncestry(WalkOf(w, job), chain) || IsHistory(w, job, chain)
    ensures forall p <- chain :: Rows(w, p) != []
  {
    var k := WalkOf(w, job);
    forall i | 0 <= i < |chain| ensures Rows(w, chain[i]) != [] {
      if IsAncestry(k, chain) {
        assert LinkAt(k, chain, i);
        AnswersItsThread(w, job, if i == 0 then k.first else k.origin(chain[i - 1]).ask, i == 0, chain[i]);
      } else {
        assert IsFileOf(w, chain[i], if i == 0 then job.stop else None);
      }
    }
  }

  lemma LinksIff(w: World, job: Job, chain: seq<Prefix>)
    requires chain != [] && forall p <- chain :: Rows(w, p) != []
    ensures (forall i :: 0 <= i < |chain| ==> LinkAt(WalkOf(w, job), chain, i)) <==> IsDeclaredChain(w, job, chain)
  {
    var k := WalkOf(w, job);
    FirstIff(w, job, chain);
    forall i | 0 < i < |chain|
      ensures LinkAt(k, chain, i) <==> IsFileOf(w, chain[i], None) && DeclaredAt(w, chain, i)
    {
      LinkIff(w, job, chain, i);
    }
  }

  /** What the walk looks for is the history that the metadata records. */
  lemma AncestryIff(w: World, job: Job, chain: seq<Prefix>)
    ensures IsAncestry(WalkOf(w, job), chain) <==> IsHistory(w, job, chain)
  {
    if IsAncestry(WalkOf(w, job), chain) || IsHistory(w, job, chain) {
      HaveRows(w, job, chain);
      LinksIff(w, job, chain);
      OriginIff(w, chain[|chain| - 1]);
    }
  }

  /** What one read of at most limit bytes yields. */
  function Take(content: Bytes, limit: nat): Bytes {
    if limit <= |content| then content[..limit] else content
  }

  /** Where a fitting prefix exists, reading one byte more than fits finds it. */
  lemma ReadsWhatIsCovered(content: Bytes, end: Option<int>, remaining: nat, data: Bytes)
    requires Covers(data, content, end) && |data| <= remaining
    ensures end.Some? ==> 0 <= end.value <= remaining
    ensures data == Take(content, if end.Some? then end.value else remaining + 1)
  {}

  /** _read_prefix, over the bytes one read can yield. */
  method ReadPrefix(w: World, path: string, end: Option<int>, remaining: int) returns (r: Outcome<Bytes>)
    ensures r.Ok? ==> w.isPlain(path) && w.content(path).Some?
    ensures r.Ok? ==> Covers(r.value, w.content(path).value, end) && IsComplete(r.value) && |r.value| <= remaining
    ensures r.Error? && w.isPlain(path) && w.content(path).Some? ==>
      forall data: Bytes :: Covers(data, w.content(path).value, end) && IsComplete(data) ==> |data| > remaining
  {
    if remaining <= 0 || (end.Some? && (end.value <= 0 || end.value > remaining)) {
      return Error("Native input exceeds byte limit");
    }
    if !w.isPlain(path) { return Error("Symlinked native input"); }
    var content := w.content(path);
    if content.None? { return Error("Native input changed while reading"); }
    r := Accept(content.value, end, remaining);
  }

  /** The length and line checks on what was read. */
  method Accept(content: Bytes, end: Option<int>, remaining: nat) returns (r: Outcome<Bytes>)
    requires end.Some? ==> 0 < end.value <= remaining
    ensures r.Ok? ==> Covers(r.value, content, end) && IsComplete(r.value) && |r.value| <= remaining
    ensures r.Error? ==> forall data :: Covers(data, content, end) && IsComplete(data) ==> |data| > remaining
  {
    var data := Take(content, if end.Some? then end.value else remaining + 1);
    forall other | Covers(other, content, end) && |other| <= remaining ensures other == data {
      ReadsWhatIsCovered(content, end, remaining, other);
    }
    if |data| > remaining || (end.Some? && |data| != end.value) {
      return Error("Native input exceeds limit or ancestor prefix is missing");
    }
    if !IsComplete(data) { return Error("Incomplete JSONL boundary"); }
    r := Ok(data);
  }

  /** The body of the walk for one file. */
  method ReadLink(w: World, ask: Ask, stop: Option<map<string, Json>>, remaining: int) returns (r: Outcome<Prefix>)
    requires w.isThread(ask.thread)
    ensures r.Ok? ==> Answers(w, ask, stop, r.value) && |r.value.data| <= remaining
    ensures r.Error? ==> forall p :: Answers(w, ask, stop, p) ==> |p.data| > remaining
  {
    var paths := w.rollouts(ask.thread);
    if |paths| != 1 { return Error("Missing or ambiguous rollout"); }
    var data := ReadPrefix(w, paths[0], ask.end, remaining);
    if data.Error? { return Error(data.why); }
    var p := Prefix(ask.thread, paths[0], data.value);
    forall q | Answers(w, ask, stop, q) ensures q == p {
      assert [q.path][0] == paths[0];
    }
    var sound := CheckLink(w, ask, stop, p);
    if sound.Refused? { return Error(sound.why); }
    r := Ok(p);
  }

  method CheckLink(w: World, ask: Ask, stop: Option<map<string, Json>>, p: Prefix) returns (r: Verdict)
    ensures r.Admitted? <==> IsSound(w, ask, stop, p)
  {
    var rows := Rows(w, p);
    if rows == [] { return Refused("Malformed native record"); }
    if ask.ordinal.Some? && |rows| != ask.ordinal.value {
      return Refused("Ancestor byte and ordinal boundaries disagree");
    }
    if !IsMeta(rows[0], ask.thread) { return Refused("Native metadata identity mismatch"); }
    r := CheckBoundary(rows, stop, p.path);
  }

  /** The walk's state: a path that is not at its root, and the request that follows it. */
  ghost predicate IsPending(k: Walk, path: seq<Prefix>, seen: set<string>, used: nat, ask: Ask) {
    && IsPath(k, path) && used == Size(path)
    && seen == (set p <- path :: p.thread) && |seen| == |path|
    && (path != [] ==> k.origin(path[|path| - 1]).Child?)
    && ask == NextAsk(k, path)
  }

  /** No ancestry exists once nothing that answers the next request fits. */
  lemma Stuck(k: Walk, path: seq<Prefix>, seen: set<string>, used: nat, ask: Ask)
    requires Decides(k) && IsPending(k, path, seen, used, ask)
    requires forall p :: k.answers(ask, path == [], p) ==>
      |path| >= k.maxFiles || used + |p.data| > k.maxBytes || p.thread in seen
    ensures forall chain :: !IsAncestry(k, chain)
  {
    forall chain ensures !IsAncestry(k, chain) {
      if IsAncestry(k, chain) {
        AncestryContinues(k, path, chain);
      }
    }
  }

  lemma PendingGrows(k: Walk, path: seq<Prefix>, seen: set<string>, used: nat, ask: Ask, p: Prefix)
    requires IsPending(k, path, seen, used, ask) && IsPath(k, path + [p])
    requires k.origin(p).Child? && p.thread == ask.thread && ask.thread !in seen
    ensures IsPending(k, path + [p], seen + {ask.thread}, used + |p.data|, k.origin(p).ask)
  {
    var longer := path + [p];
    assert longer[..|path|] == path;
    assert (set q <- longer :: q.thread) == seen + {ask.thread};
  }

  lemma AnswersItsThread(w: World, job: Job, ask: Ask, first: bool, p: Prefix)
    requires WalkOf(w, job).answers(ask, first, p)
    ensures Answers(w, ask, if first then job.stop else None, p)
    ensures w.isThread(ask.thread) && p.thread == ask.thread
  {
    assert Answers(w, ask, if first then job.stop else None, p);
  }

  /** One turn of the walk's loop, up to the reading of the declared base. */
  method Extend(w: World, job: Job, selected: seq<Prefix>, seen: set<string>, used: nat, ask: Ask)
    returns (r: Outcome<Prefix>)
    requires IsPending(WalkOf(w, job), selected, seen, used, ask)
    ensures r.Error? ==> forall chain :: !IsAncestry(WalkOf(w, job), chain)
    ensures r.Ok? ==> |selected| < job.maxFiles && IsPath(WalkOf(w, job), selected + [r.value])
    ensures r.Ok? ==> r.value.thread == ask.thread && ask.thread !in seen
    ensures r.Ok? ==> Size(selected + [r.value]) == used + |r.value.data|
  {
    ghost var k := WalkOf(w, job);
    WalkDecides(w, job);
    forall p | k.answers(ask, selected == [], p)
      ensures w.isThread(ask.thread) && p.thread == ask.thread
      ensures Answers(w, ask, if selected == [] then job.stop else None, p)
    {
      AnswersItsThread(w, job, ask, selected == [], p);
    }
    if !w.isThread(ask.thread) {
      Stuck(k, selected, seen, used, ask);
      return Error("Unrecognized thread identity");
    }
    if ask.thread in seen {
      Stuck(k, selected, seen, used, ask);
      return Error("Cyclic native ancestry");
    }
    if |seen| >= job.maxFiles {
      Stuck(k, selected, seen, used, ask);
      return Error("Untested ancestry depth");
    }
    r := ReadLink(w, ask, if selected == [] then job.stop else None, job.maxBytes - used);
    if r.Error? {
      Stuck(k, selected, seen, used, ask);
    } else {
      PathGrows(k, selected, r.value);
    }
  }

  lemma Broken(w: World, job: Job, path: seq<Prefix>)
    requires IsPath(WalkOf(w, job), path) && path != [] && Origin(w, path[|path| - 1]).Inconsistent?
    ensures forall chain :: !IsAncestry(WalkOf(w, job), chain)
  {
    WalkDecides(w, job);
    forall chain ensures !IsAncestry(WalkOf(w, job), chain) {
      BrokenPathLeadsNowhere(WalkOf(w, job), path, chain);
    }
  }

  /** A walk that ends with the ancestry, or without one where none exists, has decided the history. */
  lemma WalkDecidesHistory(w: World, job: Job, r: Outcome<seq<Prefix>>)
    requires r.Ok? ==> IsAncestry(WalkOf(w, job), r.value)
    requires r.Error? ==> forall chain :: !IsAncestry(WalkOf(w, job), chain)
    ensures forall chain :: r == Ok(chain) <==> IsHistory(w, job, chain)
  {
    forall chain ensures r == Ok(chain) <==> IsHistory(w, job, chain) {
      AncestryIff(w, job, chain);
      if r.Ok? && IsHistory(w, job, chain) {
        AncestryIsUnique(w, job, chain, r.value);
      }
    }
  }

  /**
   * select_prefixes: a list is returned exactly when the recorded metadata names a history within both budgets, and
   * it is that history.
   */
  method SelectPrefixes(w: World, job: Job) returns (r: Outcome<seq<Prefix>>)
    ensures r.Ok? ==> IsAncestry(WalkOf(w, job), r.value)
    ensures r.Error? ==> !exists chain :: IsAncestry(WalkOf(w, job), chain)
    ensures forall chain :: r == Ok(chain) <==> IsHistory(w, job, chain)
  {
    ghost var k := WalkOf(w, job);
    var selected: seq<Prefix> := [];
    var seen: set<string> := {};
    var ask := First(job);
    var used: nat := 0;
    while true
      invariant IsPending(k, selected, seen, used, ask)
      decreases job.maxFiles - |selected|
    {
      var link := Extend(w, job, selected, seen, used, ask);
      if link.Error? {
        r := Error(link.why);
        WalkDecidesHistory(w, job, r);
        return;
      }
      var p := link.value;
      match Origin(w, p)
      case Root =>
        r := Ok(selected + [p]);
        WalkDecidesHistory(w, job, r);
        return;
      case Inconsistent =>
        Broken(w, job, selected + [p]);
        r := Error("Inconsistent native ancestry");
        WalkDecidesHistory(w, job, r);
        return;
      case Child(next) =>
        PendingGrows(k, selected, seen, used, ask, p);
        seen := seen + {ask.thread};
        selected, used, ask := selected + [p], used + |p.data|, next;
    }
  }
}
