/** The transcript indexing handler against a concurrent transcript writer and crashes. */
module TranscriptIndex {
  import opened Values

  /** Every mutation of the transcript makes a version with a fingerprint of its own, so versions stand for both. */
  type Version = nat

  /** What an extraction yields: one version's text, or a mixture when the file moved underneath it. */
  datatype Doc = Whole(version: Version) | Torn

  /** Where one run of the handler stands. f is the captured fingerprint. */
  datatype Stage =
    | Idle                                       // before a run, or after a crash
    | Found                                      // the transcript is a file
    | Compared(seen: Option<Option<Version>>)    // the recorded fingerprint was read; None when that raised
    | Stale                                      // the transcript needs indexing
    | Captured(f: Version)
    | Reading(f: Version, from: Version)
    | Extracted(f: Version, doc: Doc)
    | Writing(f: Version, doc: Doc, written: nat)
    | Marked(f: Version)
    | Returned(indexed: bool)
    | Raised

  /** The live transcript, the three search stores, the recorded fingerprint, and each drainer's run. */
  datatype State = State(
    live: Option<Version>, next: Version,
    document: Option<Doc>, ranking: Option<Doc>, content: Option<Doc>,
    recorded: Option<Version>, readable: bool, runs: seq<Stage>)

  datatype Step =
    | Mutate | Delete | Prune                    // the transcript's writer, and the cleanup of missing files
    | Break | Mend(kept: bool)                   // the bookkeeping becomes unreadable, then readable again
    | Crash(who: nat) | Act(who: nat)

  predicate AtRest(stage: Stage) {
    stage.Idle? || stage.Returned? || stage.Raised?
  }

  function Enter(s: State, who: nat, stage: Stage): State
    requires who < |s.runs|
  {
    s.(runs := s.runs[who := stage])
  }

  /** The next action of one run. */
  function Acted(s: State, who: nat): State
    requires who < |s.runs|
  {
    match s.runs[who]
    case Idle => Enter(s, who, if s.live.Some? then Found else Raised)
    case Returned(_) => Enter(s, who, if s.live.Some? then Found else Raised)
    case Raised => Enter(s, who, if s.live.Some? then Found else Raised)
    case Found => Enter(s, who, Compared(if s.readable then Some(s.recorded) else None))
    case Compared(seen) =>
      Enter(s, who, if seen.Some? && (s.live.None? || seen.value == s.live) then Returned(false) else Stale)
    case Stale => Enter(s, who, if s.live.Some? then Captured(s.live.value) else Raised)
    case Captured(f) => Enter(s, who, if s.live.Some? then Reading(f, s.live.value) else Raised)
    case Reading(f, from) => Enter(s, who, Extracted(f, if s.live == Some(from) then Whole(from) else Torn))
    case Extracted(f, doc) => Enter(s, who, if s.live == Some(f) then Writing(f, doc, 0) else Raised)
    case Writing(f, doc, written) => Written(s, who, f, doc, written)
    case Marked(f) => Enter(s, who, if s.live == Some(f) then Returned(true) else Raised)
  }

  /** Three upserts in order, then the mark of the captured fingerprint. */
  function Written(s: State, who: nat, f: Version, doc: Doc, written: nat): State
    requires who < |s.runs|
  {
    if written == 0 then Enter(s.(document := Some(doc)), who, Writing(f, doc, 1))
    else if written == 1 then Enter(s.(ranking := Some(doc)), who, Writing(f, doc, 2))
    else if written == 2 then Enter(s.(content := Some(doc)), who, Writing(f, doc, 3))
    else if s.readable then Enter(s.(recorded := Some(f)), who, Marked(f))
    else Enter(s, who, Raised)
  }

  predicate Enabled(s: State, step: Step) {
    match step
    case Delete => s.live.Some?
    case Prune => s.live.None? && s.readable
    case Mend(_) => !s.readable
    case Crash(who) => who < |s.runs|
    case Act(who) => who < |s.runs|
    case _ => true
  }

  function Apply(s: State, step: Step): State
    requires Enabled(s, step)
  {
    match step
    case Mutate => s.(live := Some(s.next), next := s.next + 1)
    case Delete => s.(live := None)
    case Prune => s.(recorded := None)
    case Break => s.(readable := false)
    case Mend(kept) => s.(readable := true, recorded := if kept then s.recorded else None)
    case Crash(who) => Enter(s, who, Idle)
    case Act(who) => Acted(s, who)
  }

  /** Any project whose bookkeeping starts empty; the stores may hold anything. */
  predicate IsInitial(s: State, drainers: nat) {
    && |s.runs| == drainers && s.recorded == None
    && (s.live.Some? ==> s.live.value < s.next)
    && forall stage <- s.runs :: stage == Idle
  }

  ghost predicate IsRun(run: seq<State>, steps: seq<Step>, drainers: nat) {
    && |run| == |steps| + 1 && IsInitial(run[0], drainers)
    && forall i :: 0 <= i < |steps| ==> Enabled(run[i], steps[i]) && run[i + 1] == Apply(run[i], steps[i])
  }

  /** The stores all hold this version's extraction. */
  predicate Holds(s: State, v: Version) {
    s.document == s.ranking == s.content == Some(Whole(v))
  }

  /** What the index promises a reader: a fingerprint that matches the transcript vouches for all three stores. */
  predicate IsHonest(s: State) {
    s.recorded.Some? && s.recorded == s.live ==> Holds(s, s.live.value)
  }

  /** Nothing recorded is newer than f, and nothing live is older. */
  predicate IsCurrent(s: State, f: Version) {
    && f < s.next && (s.recorded.Some? ==> s.recorded.value <= f)
    && (s.live.Some? ==> s.live.value >= f)
  }

  /** A run's stage vouches for what it has read and written; a fresh version never equals one it has seen. */
  predicate RunFits(s: State, stage: Stage) {
    match stage
    case Compared(Some(Some(v))) => v < s.next && (s.live == Some(v) ==> Holds(s, v) && Recorded(s, v))
    case Captured(f) => IsCurrent(s, f)
    case Reading(f, from) => IsCurrent(s, f) && f <= from < s.next && (s.live.Some? ==> from <= s.live.value)
    case Extracted(f, doc) => IsCurrent(s, f) && (s.live == Some(f) ==> doc == Whole(f))
    case Writing(f, doc, written) =>
      && IsCurrent(s, f) && doc == Whole(f)
      && (written >= 1 ==> s.document == Some(doc))
      && (written >= 2 ==> s.ranking == Some(doc))
      && (written >= 3 ==> s.content == Some(doc))
    case Marked(f) => IsCurrent(s, f) && Holds(s, f) && Recorded(s, f)
    case _ => true
  }

  /** v is what the bookkeeping says, unless it was reset. */
  predicate Recorded(s: State, v: Version) {
    s.recorded == Some(v) || s.recorded == None
  }

  predicate Invariant(s: State) {
    && |s.runs| == 1 && IsHonest(s)
    && (s.live.Some? ==> s.live.value < s.next)
    && (s.recorded.Some? ==> s.recorded.value < s.next && (s.live.Some? ==> s.recorded.value <= s.live.value))
    && RunFits(s, s.runs[0])
  }

  lemma OthersKeepTheInvariant(s: State, step: Step)
    requires Invariant(s) && Enabled(s, step) && !step.Act?
    ensures Invariant(Apply(s, step))
  {}

  lemma ReadingKeepsTheInvariant(s: State)
    requires Invariant(s) && !s.runs[0].Writing?
    ensures Invariant(Acted(s, 0))
  {}

  lemma WritingKeepsTheInvariant(s: State)
    requires Invariant(s) && s.runs[0].Writing?
    ensures Invariant(Acted(s, 0))
  {}

  lemma InvariantStep(s: State, step: Step)
    requires Invariant(s) && Enabled(s, step)
    ensures Invariant(Apply(s, step))
  {
    if !step.Act? {
      OthersKeepTheInvariant(s, step);
    } else if s.runs[0].Writing? {
      WritingKeepsTheInvariant(s);
    } else {
      ReadingKeepsTheInvariant(s);
    }
  }

  lemma {:induction false} Always(run: seq<State>, steps: seq<Step>, i: nat)
    requires IsRun(run, steps, 1) && i < |run|
    ensures Invariant(run[i])
  {
    if i == 0 {
      assert run[0].runs[0] in run[0].runs;
    } else {
      Always(run, steps, i - 1);
      InvariantStep(run[i - 1], steps[i - 1]);
    }
  }

  /**
   * With one drainer, whatever the writer does and wherever the handler crashes, a recorded fingerprint that
   * matches the live transcript means all three stores hold the extraction of exactly that version.
   */
  lemma IndexIsHonest(run: seq<State>, steps: seq<Step>, i: nat)
    requires IsRun(run, steps, 1) && i < |run|
    ensures IsHonest(run[i])
  {
    Always(run, steps, i);
  }

  /**
   * A run returns normally only for a transcript that is gone, without indexing, or when the stores hold the live
   * version; after indexing the transcript is there.
   */
  lemma ReturnsAreEarned(run: seq<State>, steps: seq<Step>, i: nat)
    requires IsRun(run, steps, 1) && i < |steps|
    requires steps[i].Act? && run[i + 1].runs[0].Returned?
    ensures |run[i].runs| == 1 && !run[i].runs[0].Returned?
    ensures var s := run[i + 1];
      if s.live.None? then !s.runs[0].indexed else Holds(s, s.live.value) && Recorded(s, s.live.value)
  {
    Always(run, steps, i);
  }

  /** n undisturbed actions of one run. */
  function Alone(s: State, who: nat, n: nat): (r: State)
    requires who < |s.runs|
    ensures |r.runs| == |s.runs|
    decreases n
  {
    if n == 0 then s else Acted(Alone(s, who, n - 1), who)
  }

  /** Left alone with readable bookkeeping, a run indexes what is there and says so, from whatever it finds. */
  lemma QuietRunIndexes(s: State, v: Version)
    requires Invariant(s) && AtRest(s.runs[0]) && s.live == Some(v) && s.readable
    ensures exists n: nat :: var r := Alone(s, 0, n);
      r.runs[0].Returned? && r.recorded == r.live == Some(v) && Holds(r, v)
  {
    var compared := Alone(s, 0, 2);
    assert compared == Enter(s, 0, Compared(Some(s.recorded)));
    if s.recorded == s.live {
      assert Alone(s, 0, 3).runs[0] == Returned(false);
    } else {
      var extracted := Alone(s, 0, 6);
      assert extracted == Enter(s, 0, Extracted(v, Whole(v)));
      var written := Alone(s, 0, 10);
      assert written.runs[0] == Writing(v, Whole(v), 3) && Holds(written, v) && written.live == s.live;
      assert Alone(s, 0, 12).runs[0] == Returned(true);
    }
  }

  ghost predicate Reachable(s: State, drainers: nat) {
    exists run, steps :: IsRun(run, steps, drainers) && run[|steps|] == s
  }

  lemma ReachableStep(s: State, drainers: nat, step: Step)
    requires Reachable(s, drainers) && Enabled(s, step)
    ensures Reachable(Apply(s, step), drainers)
  {
    var run, steps :| IsRun(run, steps, drainers) && run[|steps|] == s;
    var longer, more := run + [Apply(s, step)], steps + [step];
    assert IsRun(longer, more, drainers) && longer[|more|] == Apply(s, step);
  }

  lemma {:induction false} ReachableAlone(s: State, drainers: nat, who: nat, n: nat)
    requires Reachable(s, drainers) && who < |s.runs|
    ensures Reachable(Alone(s, who, n), drainers)
  {
    if n > 0 {
      ReachableAlone(s, drainers, who, n - 1);
      ReachableStep(Alone(s, who, n - 1), drainers, Act(who));
    }
  }

  const FRESH: State := State(Some(0), 1, None, None, None, None, true, [Idle, Idle])
  const ABOUT_TO_WRITE: State := FRESH.(runs := [Writing(0, Whole(0), 0), Idle])
  const OVERTAKEN: State := State(
    Some(1), 2, Some(Whole(1)), Some(Whole(1)), Some(Whole(1)), Some(1), true,
    [Writing(0, Whole(0), 0), Returned(true)])

  lemma FirstReachesItsWrites()
    ensures Alone(FRESH, 0, 7) == ABOUT_TO_WRITE
  {
    assert Alone(FRESH, 0, 4) == FRESH.(runs := [Captured(0), Idle]);
  }

  lemma SecondOvertakes()
    ensures Alone(Apply(ABOUT_TO_WRITE, Mutate), 1, 12) == OVERTAKEN
  {
    var s := Apply(ABOUT_TO_WRITE, Mutate);
    assert Alone(s, 1, 4) == s.(runs := [Writing(0, Whole(0), 0), Captured(1)]);
    assert Alone(s, 1, 7) == s.(runs := [Writing(0, Whole(0), 0), Writing(1, Whole(1), 0)]);
    assert Alone(s, 1, 11).runs[1] == Marked(1);
  }

  /**
   * Two drainers break the promise: one that rechecked an older version writes it over the newer one's store
   * after the newer one was recorded, and a crash leaves it there.
   */
  lemma TwoDrainersLie() returns (s: State)
    ensures Reachable(s, 2) && !IsHonest(s)
    ensures forall stage <- s.runs :: AtRest(stage)
  {
    OvertakenIsReachable();
    ReachableStep(OVERTAKEN, 2, Act(0));
    s := Apply(OVERTAKEN, Act(0));
    ReachableStep(s, 2, Crash(0));
    s := Apply(s, Crash(0));
  }

  lemma OvertakenIsReachable()
    ensures Reachable(OVERTAKEN, 2)
  {
    assert IsRun([FRESH], [], 2);
    ReachableAlone(FRESH, 2, 0, 7);
    FirstReachesItsWrites();
    ReachableStep(ABOUT_TO_WRITE, 2, Mutate);
    ReachableAlone(Apply(ABOUT_TO_WRITE, Mutate), 2, 1, 12);
    SecondOvertakes();
  }

  /** More drainers that stay idle. */
  function Joined(s: State, idle: nat): State {
    s.(runs := s.runs + seq(idle, _ => Idle))
  }

  lemma JoinedRuns(runs: seq<Stage>, who: nat, stage: Stage, idle: nat)
    requires who < |runs|
    ensures (runs + seq(idle, _ => Idle))[who := stage] == runs[who := stage] + seq(idle, _ => Idle)
    ensures (runs + seq(idle, _ => Idle))[who] == runs[who]
  {}

  lemma JoinedWrites(s: State, who: nat, idle: nat)
    requires who < |s.runs| && s.runs[who].Writing?
    ensures Acted(Joined(s, idle), who) == Joined(Acted(s, who), idle)
  {
    JoinedRuns(s.runs, who, Acted(s, who).runs[who], idle);
  }

  lemma JoinedReads(s: State, who: nat, idle: nat)
    requires who < |s.runs| && !s.runs[who].Writing?
    ensures Acted(Joined(s, idle), who) == Joined(Acted(s, who), idle)
  {
    JoinedRuns(s.runs, who, Acted(s, who).runs[who], idle);
  }

  lemma JoinedApply(s: State, step: Step, idle: nat)
    requires Enabled(s, step)
    ensures Enabled(Joined(s, idle), step) && Apply(Joined(s, idle), step) == Joined(Apply(s, step), idle)
  {
    match step
    case Crash(who) => JoinedRuns(s.runs, who, Idle, idle);
    case Act(who) =>
      if s.runs[who].Writing? {
        JoinedWrites(s, who, idle);
      } else {
        JoinedReads(s, who, idle);
      }
    case _ =>
  }

  /** Whatever some drainers can reach, they can reach beside idle ones. */
  lemma JoinedIsReachable(s: State, drainers: nat, idle: nat)
    requires Reachable(s, drainers)
    ensures Reachable(Joined(s, idle), drainers + idle)
  {
    var run, steps :| IsRun(run, steps, drainers) && run[|steps|] == s;
    var wide := seq(|run|, i requires 0 <= i < |run| => Joined(run[i], idle));
    forall i | 0 <= i < |steps| ensures Enabled(wide[i], steps[i]) && wide[i + 1] == Apply(wide[i], steps[i]) {
      JoinedApply(run[i], steps[i], idle);
    }
    assert IsRun(wide, steps, drainers + idle);
  }

  /** Without drainers nothing is ever recorded. */
  lemma {:induction false} NobodyRecords(run: seq<State>, steps: seq<Step>, i: nat)
    requires IsRun(run, steps, 0) && i < |run|
    ensures run[i].recorded == None && run[i].runs == []
  {
    if i > 0 {
      NobodyRecords(run, steps, i - 1);
    }
  }

  /** The index stays honest in every run exactly with at most one drainer. */
  lemma HonestIff(drainers: nat)
    ensures (forall s | Reachable(s, drainers) :: IsHonest(s)) <==> drainers <= 1
  {
    if drainers <= 1 {
      forall s | Reachable(s, drainers) ensures IsHonest(s) {
        var run, steps :| IsRun(run, steps, drainers) && run[|steps|] == s;
        if drainers == 0 {
          NobodyRecords(run, steps, |steps|);
        } else {
          IndexIsHonest(run, steps, |steps|);
        }
      }
    } else {
      var s := TwoDrainersLie();
      JoinedIsReachable(s, 2, drainers - 2);
      assert !IsHonest(Joined(s, drainers - 2));
    }
  }
}
