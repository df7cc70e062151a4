/** Runs that show where the watchdog's guarantees end. */
module WatchdogRuns {
  import opened ProcessTable
  import opened Values
  import opened Watchdog
  import opened WatchdogSafety
  import opened WatchdogTiming
  import opened WatchdogTheorems

  function At(procs: map<Pid, Proc>, births: nat, phase: Phase, stage: Stage, lost: bool, pipes: Pipes): State {
    State(0, Table(procs, births), Guarding, Watcher(phase, 0, false, 0),
          Anchor(stage, if births == 0 then 0 else 1, 0, lost, 0), pipes, [])
  }

  const SILENT := Pipes(true, None, None, None, None)
  const TOLD := SILENT.(delivered := Some(0))
  const START: State := At(map[], 0, Boot, Unborn, false, SILENT.(sent := false))

  /** Some run from START ends in s; a calm one has no crash of the anchor. */
  ghost predicate Reached(c: Config, s: State, calm: bool) {
    exists run, steps :: IsRun(c, run, steps) && run[|steps|] == s && (calm ==> Anchored(Die) !in steps)
  }

  lemma ReachedIsReachable(c: Config, s: State, calm: bool)
    requires Reached(c, s, calm)
    ensures Reachable(c, s)
  {}

  lemma Extend(c: Config, s: State, step: Step, t: State, calm: bool)
    requires Reached(c, s, calm) && Goes(c, s, step, t) && (calm ==> step != Anchored(Die))
    ensures Reached(c, t, calm)
  {
    var run, steps :| IsRun(c, run, steps) && run[|steps|] == s && (calm ==> Anchored(Die) !in steps);
    assert IsRun(c, run + [t], steps + [step]);
  }

  lemma OneTick(c: Config, s: State)
    requires MayWait(c, s) && (Born(s) && !Up(s) ==> s.pipes.statusAt.Some?)
    ensures Goes(c, s, Tick, s.(now := s.now + 1))
  {}

  /** Time passes freely as long as nobody is due at the end of the interval. */
  lemma {:induction false} Pass(c: Config, s: State, n: nat, calm: bool)
    requires Reached(c, s, calm) && (Born(s) && !Up(s) ==> s.pipes.statusAt.Some?)
    requires n > 0 ==> MayWait(c, s.(now := s.now + n - 1))
    ensures Reached(c, s.(now := s.now + n), calm)
  {
    if n > 0 {
      Pass(c, s, n - 1, calm);
      OneTick(c, s.(now := s.now + n - 1));
      Extend(c, s.(now := s.now + n - 1), Tick, s.(now := s.now + n), calm);
    }
  }

  // ----- A reviewer, PID 2, with a child of its own, PID 3 -----

  function Member(born: nat, alive: bool): Proc {
    Proc(born, 1, 0, 0, alive, false)
  }

  const ALONE: map<Pid, Proc> := map[1 := Member(0, true)]
  const COUPLE: map<Pid, Proc> := ALONE[2 := Member(1, true)]
  const FAMILY: map<Pid, Proc> := COUPLE[3 := Member(2, true)]
  const WITH_REVIEWER: State := At(FAMILY, 3, LoopTop, Running(2, 1), false, TOLD)

  lemma PayloadSent(c: Config)
    ensures Init(START) && Reached(c, At(map[], 0, Boot, Unborn, false, SILENT), true)
  {
    assert IsRun(c, [START], []);
    Extend(c, START, Owned(Send), At(map[], 0, Boot, Unborn, false, SILENT), true);
  }

  lemma WatcherStarts(c: Config)
    requires 0 < c.deadline
    ensures Reached(c, At(map[], 0, Spawning, Unborn, false, SILENT), true)
  {
    PayloadSent(c);
    Extend(c, At(map[], 0, Boot, Unborn, false, SILENT), Watched(Read),
           At(map[], 0, Spawning, Unborn, false, SILENT), true);
  }

  lemma AnchorSpawned(c: Config)
    requires 0 < c.deadline
    ensures Reached(c, At(ALONE, 1, Delivering, Booting, false, SILENT), true)
  {
    WatcherStarts(c);
    Extend(c, At(map[], 0, Spawning, Unborn, false, SILENT), Watched(SpawnAnchor(1)),
           At(ALONE, 1, Delivering, Booting, false, SILENT), true);
  }

  lemma PayloadDelivered(c: Config)
    requires 0 < c.deadline
    ensures Reached(c, At(ALONE, 1, LoopTop, Booting, false, TOLD), true)
  {
    AnchorSpawned(c);
    Extend(c, At(ALONE, 1, Delivering, Booting, false, SILENT), Watched(Deliver),
           At(ALONE, 1, LoopTop, Booting, false, TOLD), true);
  }

  lemma AnchorArms(c: Config)
    requires 0 < c.deadline
    ensures Reached(c, At(ALONE, 1, LoopTop, Armed, false, TOLD), true)
  {
    PayloadDelivered(c);
    Extend(c, At(ALONE, 1, LoopTop, Booting, false, TOLD), Anchored(ReadPayload),
           At(ALONE, 1, LoopTop, Armed, false, TOLD), true);
  }

  lemma ReviewerStarts(c: Config)
    requires 0 < c.deadline
    ensures Reached(c, At(COUPLE, 2, LoopTop, Running(2, 1), false, TOLD), true)
  {
    AnchorArms(c);
    Extend(c, At(ALONE, 1, LoopTop, Armed, false, TOLD), Anchored(Launch(2)),
           At(COUPLE, 2, LoopTop, Running(2, 1), false, TOLD), true);
  }

  lemma ReviewerForks(c: Config)
    requires 0 < c.deadline
    ensures Reached(c, WITH_REVIEWER, true)
  {
    ReviewerStarts(c);
    Extend(c, At(COUPLE, 2, LoopTop, Running(2, 1), false, TOLD), Elsewhere(CFork(2, 3)),
           WITH_REVIEWER, true);
  }

  // ----- Survivors -----

  function Watcherless(procs: map<Pid, Proc>, stage: Stage, lost: bool, statusAt: Option<int>): State {
    At(procs, 3, Crashed, stage, lost, TOLD.(statusAt := statusAt))
  }

  const UNWATCHED: State := Watcherless(FAMILY, Running(2, 1), false, None)
  const DESERTED: State := Watcherless(FAMILY[1 := Member(0, false)], Running(2, 1), true, Some(0))
  const CHILD_ALONE: State := Watcherless(FAMILY[2 := Member(1, false)], Running(2, 1), false, None)
  const ORPHANED: State := Watcherless(FAMILY[1 := Member(0, false)][2 := Member(1, false)], Reported, true, Some(0))

  lemma WatcherCrashes(c: Config)
    requires 0 < c.deadline
    ensures Reached(c, UNWATCHED, true)
  {
    ReviewerForks(c);
    Extend(c, WITH_REVIEWER, Watched(Crash), UNWATCHED, true);
  }

  lemma AnchorCrashesToo(c: Config)
    requires 0 < c.deadline
    ensures Reached(c, DESERTED, false)
  {
    WatcherCrashes(c);
    assert Apply(c, UNWATCHED, Anchored(Die)) == DESERTED;
    Extend(c, UNWATCHED, Anchored(Die), DESERTED, false);
  }

  lemma DesertedRunsOn(c: Config, n: nat)
    requires 0 < c.deadline
    ensures Reached(c, DESERTED.(now := n), false)
  {
    AnchorCrashesToo(c);
    Pass(c, DESERTED, n, false);
  }

  /** If both watcher and anchor crash, the reviewer and its child outlive every bound. */
  lemma BothCrashesLeaveSurvivors(c: Config, n: nat) returns (s: State)
    requires 0 < c.deadline
    ensures Reachable(c, s) && s.now == n && HasArmed(s) && Abandoned(s) && Loyal(s.table, s.a.born) == {2, 3}
  {
    s := DESERTED.(now := n);
    DesertedRunsOn(c, n);
    ReachedIsReachable(c, s, false);
  }

  lemma ReviewerExits(c: Config)
    requires 0 < c.deadline
    ensures Reached(c, CHILD_ALONE, true)
  {
    WatcherCrashes(c);
    assert Apply(c, UNWATCHED, Elsewhere(CExit(2))) == CHILD_ALONE;
    Extend(c, UNWATCHED, Elsewhere(CExit(2)), CHILD_ALONE, true);
  }

  lemma ReportFails(c: Config)
    requires 0 < c.deadline
    ensures Reached(c, ORPHANED, true)
  {
    ReviewerExits(c);
    assert Apply(c, CHILD_ALONE, Anchored(Report(0))) == ORPHANED;
    Extend(c, CHILD_ALONE, Anchored(Report(0)), ORPHANED, true);
  }

  lemma OrphanRunsOn(c: Config, n: nat)
    requires 0 < c.deadline
    ensures Reached(c, ORPHANED.(now := n), true)
  {
    ReportFails(c);
    Pass(c, ORPHANED, n, true);
  }

  /**
    The watcher's crash alone is enough if the reviewer then exits and leaves a child: the
    anchor's report fails on the broken pipe and takes the armed timer with it.
  */
  lemma WatcherCrashLeavesSurvivors(c: Config, n: nat) returns (s: State)
    requires 0 < c.deadline
    ensures Reached(c, s, true) && Reachable(c, s) && s.now == n && HasArmed(s) && Abandoned(s)
    ensures Loyal(s.table, s.a.born) == {3} && s.a.armedAt == 0
  {
    s := ORPHANED.(now := n);
    OrphanRunsOn(c, n);
    ReachedIsReachable(c, s, true);
  }

  /** Which of the two guards of the group has failed: the watcher by a crash, the anchor by a loss. */
  predicate HasFault(s: State, crashed: bool, lost: bool) {
    (s.w.phase == Crashed <==> crashed) && (s.a.lost <==> lost)
  }

  /** The bound holds in every run of a fault pattern exactly if one of the two guards is left. */
  lemma GroupDiesInTimeIff(c: Config, crashed: bool, lost: bool)
    requires 0 < c.deadline
    ensures (forall s | Reachable(c, s) && HasArmed(s) && HasFault(s, crashed, lost) && Limit(c, s) < s.now :: NoLoyal(s))
       <==> !(crashed && lost)
  {
    if crashed && lost {
      var n := Max(0, Limit(c, ORPHANED) + 1);
      var s := WatcherCrashLeavesSurvivors(c, n);
      assert HasFault(s, true, true) && Limit(c, s) == Limit(c, ORPHANED) && !NoLoyal(s);
    } else {
      forall s | Reachable(c, s) && HasArmed(s) && HasFault(s, crashed, lost) && Limit(c, s) < s.now ensures NoLoyal(s) {
        GroupDiesInTime(c, s);
      }
    }
  }

  // ----- A child that leaves the group and comes back -----

  const LEFT: map<Pid, Proc> := FAMILY[3 := Proc(2, 3, 2, 0, true, true)]
  const FINISHED: map<Pid, Proc> := LEFT[2 := Member(1, false)]
  const KILLED: map<Pid, Proc> := FINISHED[1 := Member(0, false)]
  const REAPED: map<Pid, Proc> := map[2 := Member(1, false), 3 := Proc(2, 3, 2, 0, true, true)]
  const REJOINED: map<Pid, Proc> := map[2 := Member(1, false), 3 := Proc(2, 1, 0, 0, true, true)]
  const DONE: Pipes := TOLD.(status := Some(0), statusAt := Some(0))
  const SENT: seq<Act> := [Signalled(ByWatcher, KILL, 0, {Member(0, true)})]
  const OVER: seq<Act> := SENT + [Reaped(ByWatcher, 0)]

  function Orderly(procs: map<Pid, Proc>, phase: Phase, stage: Stage, pipes: Pipes, log: seq<Act>): State {
    State(0, Table(procs, 3), Guarding, Watcher(phase, 0, phase != LoopTop && phase != Selecting, 0),
          Anchor(stage, 1, 0, false, 0), pipes, log)
  }

  lemma ChildLeaves(c: Config)
    requires 0 < c.deadline
    ensures Reached(c, Orderly(LEFT, LoopTop, Running(2, 1), TOLD, []), true)
  {
    ReviewerForks(c);
    Extend(c, WITH_REVIEWER, Elsewhere(CFoundGroup(3)), Orderly(LEFT, LoopTop, Running(2, 1), TOLD, []), true);
  }

  lemma ReviewerFinishes(c: Config)
    requires 0 < c.deadline
    ensures Reached(c, Orderly(FINISHED, LoopTop, Running(2, 1), TOLD, []), true)
  {
    ChildLeaves(c);
    Extend(c, Orderly(LEFT, LoopTop, Running(2, 1), TOLD, []), Elsewhere(CExit(2)),
           Orderly(FINISHED, LoopTop, Running(2, 1), TOLD, []), true);
  }

  lemma ReviewerReports(c: Config)
    requires 0 < c.deadline
    ensures Reached(c, Orderly(FINISHED, LoopTop, Reported, DONE, []), true)
  {
    ReviewerFinishes(c);
    Extend(c, Orderly(FINISHED, LoopTop, Running(2, 1), TOLD, []), Anchored(Report(0)),
           Orderly(FINISHED, LoopTop, Reported, DONE, []), true);
  }

  lemma WatcherWakes(c: Config)
    requires 0 < c.deadline
    ensures Reached(c, Orderly(FINISHED, Killing, Reported, DONE, []), true)
  {
    ReviewerReports(c);
    Extend(c, Orderly(FINISHED, LoopTop, Reported, DONE, []), Watched(EnterLoop),
           Orderly(FINISHED, Selecting, Reported, DONE, []), true);
    Extend(c, Orderly(FINISHED, Selecting, Reported, DONE, []), Watched(Wake),
           Orderly(FINISHED, Killing, Reported, DONE, []), true);
  }

  lemma WatcherKills(c: Config)
    requires 0 < c.deadline
    ensures Reached(c, Orderly(KILLED, Reaping, Reported, DONE, SENT), true)
  {
    WatcherWakes(c);
    var s := Orderly(FINISHED, Killing, Reported, DONE, []);
    assert Group(s) == {1} && Described(s.table, {1}) == {Member(0, true)};
    assert Kill(s.table, {1}).procs == KILLED;
    Extend(c, s, Watched(KillGroup), Orderly(KILLED, Reaping, Reported, DONE, SENT), true);
  }

  lemma WatcherReaps(c: Config)
    requires 0 < c.deadline
    ensures Reached(c, Orderly(REAPED, Exited, Reported, DONE, OVER), true)
  {
    WatcherKills(c);
    assert KILLED - {1} == REAPED;
    Extend(c, Orderly(KILLED, Reaping, Reported, DONE, SENT), Watched(Wait),
           Orderly(REAPED, Exited, Reported, DONE, OVER), true);
  }

  lemma ChildRejoins(c: Config, n: nat)
    requires 0 < c.deadline
    ensures Reached(c, Orderly(REJOINED, Exited, Reported, DONE, OVER).(now := n), true)
  {
    WatcherReaps(c);
    Extend(c, Orderly(REAPED, Exited, Reported, DONE, OVER), Elsewhere(CJoinGroup(3, 2)),
           Orderly(REJOINED, Exited, Reported, DONE, OVER), true);
    Pass(c, Orderly(REJOINED, Exited, Reported, DONE, OVER), n, true);
  }

  /** The living members of the group that the anchor founded, however they came to be in it. */
  function Members(s: State): set<Pid> {
    set p <- s.table.procs | s.table.procs[p].founder == s.a.born && s.table.procs[p].alive
  }

  /** Some member of the group has changed group before. */
  predicate HasStrays(s: State) {
    exists p <- s.table.procs :: s.table.procs[p].founder == s.a.born && s.table.procs[p].strayed
  }

  /**
    Without any crash or loss, a child that left the group rejoins it through its dead parent after the watcher has
    exited, and is there at any later time.
  */
  lemma RejoiningSurvives(c: Config, n: nat) returns (s: State)
    requires 0 < c.deadline
    ensures Reachable(c, s) && s.now == n && HasArmed(s) && s.w.phase == Exited && !s.a.lost
    ensures Members(s) == {3} && s.a.armedAt == 0
  {
    s := Orderly(REJOINED, Exited, Reported, DONE, OVER).(now := n);
    ChildRejoins(c, n);
    ReachedIsReachable(c, s, true);
  }

  /** Nothing has happened that is not allowed: a crash of the watcher, a loss of the anchor, a change of group. */
  predicate IsWithin(s: State, crash: bool, loss: bool, straying: bool) {
    (s.w.phase == Crashed ==> crash) && (s.a.lost ==> loss) && (HasStrays(s) ==> straying)
  }

  /** The whole group is dead by the limit in every run exactly if no member strays and one of the guards is left. */
  lemma WholeGroupDiesInTimeIff(c: Config, crash: bool, loss: bool, straying: bool)
    requires 0 < c.deadline
    ensures (forall s | Reachable(c, s) && HasArmed(s) && IsWithin(s, crash, loss, straying) && Limit(c, s) < s.now ::
               Members(s) == {})
       <==> !(crash && loss) && !straying
  {
    if straying {
      var n := Max(0, Limit(c, WITH_REVIEWER) + 1);
      var s := RejoiningSurvives(c, n);
      assert IsWithin(s, crash, loss, straying) && Limit(c, s) == Limit(c, WITH_REVIEWER) && 3 in Members(s);
    } else if crash && loss {
      var n := Max(0, Limit(c, ORPHANED) + 1);
      var s := ORPHANED.(now := n);
      OrphanRunsOn(c, n);
      ReachedIsReachable(c, s, true);
      assert IsWithin(s, crash, loss, straying) && Limit(c, s) == Limit(c, ORPHANED) && 3 in Members(s);
    } else {
      forall s | Reachable(c, s) && HasArmed(s) && IsWithin(s, crash, loss, straying) && Limit(c, s) < s.now
        ensures Members(s) == {}
      {
        GroupDiesInTime(c, s);
        assert Members(s) == Loyal(s.table, s.a.born);
      }
    }
  }

  // ----- A watcher that is too slow -----

  const SHARE := TERMINATION_GRACE / 4
  const HIT: set<Proc> := Described(WITH_REVIEWER.table, Recipients(WITH_REVIEWER.table, 1))

  function Slow(now: int, phase: Phase, entered: int, log: seq<Act>): State {
    WITH_REVIEWER.(now := now, w := Watcher(phase, entered, false, if phase == Selecting then 0 else TIMEOUT_EXIT), log := log)
  }

  function Signalling(s: State, w: WatcherStep): State {
    Slow(s.now, if w.Interrupt? then Terminating else Killing,
         s.now + (if w.Interrupt? then INTERRUPTION_GRACE else TERMINATION_GRACE),
         s.log + [Signalled(ByWatcher, if w.Interrupt? then INT else TERM, s.now, HIT)])
  }

  lemma SignalNobody(c: Config, s: State, w: WatcherStep)
    requires (w == Interrupt({}) && s.w.phase == Interrupting) || (w == Terminate({}) && s.w.phase == Terminating)
    requires s == Slow(s.now, s.w.phase, s.w.entered, s.log) && s.w.entered <= s.now
    ensures Goes(c, s, Watched(w), Signalling(s, w))
  {
    assert Kill(WITH_REVIEWER.table, {}).procs == WITH_REVIEWER.table.procs;
  }

  lemma SlowlyPass(c: Config, s: State, until: int)
    requires s == Slow(s.now, s.w.phase, s.w.entered, s.log) && Reached(c, s, true)
    requires 0 < c.deadline && SHARE <= c.slack && s.now <= until <= c.deadline + HARD_KILL_DELAY
    requires Timed(s.w.phase) && until <= (if s.w.phase == Selecting then Max(s.w.entered, c.deadline) else s.w.entered) + SHARE
    ensures Reached(c, s.(now := until), true)
  {
    Pass(c, s, until - s.now, true);
  }

  /** Every action of the watcher comes a full quarter of the termination grace late. */
  lemma SlowSignal(c: Config, now: int, phase: Phase, entered: int, log: seq<Act>, w: WatcherStep, at: int)
    requires 0 < c.deadline && SHARE <= c.slack && now <= entered + SHARE == at < c.deadline + HARD_KILL_DELAY
    requires (w == Interrupt({}) && phase == Interrupting) || (w == Terminate({}) && phase == Terminating)
    requires Reached(c, Slow(now, phase, entered, log), true)
    ensures Reached(c, Signalling(Slow(at, phase, entered, log), w), true)
  {
    SlowlyPass(c, Slow(now, phase, entered, log), at);
    SignalNobody(c, Slow(at, phase, entered, log), w);
    Extend(c, Slow(at, phase, entered, log), Watched(w), Signalling(Slow(at, phase, entered, log), w), true);
  }

  lemma EntersLoop(c: Config)
    requires 0 < c.deadline
    ensures Reached(c, Slow(0, Selecting, 0, []), true)
  {
    ReviewerForks(c);
    Extend(c, WITH_REVIEWER, Watched(EnterLoop), Slow(0, Selecting, 0, []), true);
  }

  lemma SelectsTooLong(c: Config)
    requires 0 < c.deadline && SHARE <= c.slack
    ensures Reached(c, Slow(c.deadline + SHARE, Selecting, 0, []), true)
  {
    EntersLoop(c);
    SlowlyPass(c, Slow(0, Selecting, 0, []), c.deadline + SHARE);
  }

  lemma SlowUntilInterrupting(c: Config)
    requires 0 < c.deadline && SHARE <= c.slack
    ensures Reached(c, Slow(c.deadline + SHARE, Interrupting, c.deadline + SHARE, []), true)
  {
    SelectsTooLong(c);
    Extend(c, Slow(c.deadline + SHARE, Selecting, 0, []), Watched(TimeOut),
           Slow(c.deadline + SHARE, Interrupting, c.deadline + SHARE, []), true);
  }

  function Interrupted(c: Config): seq<Act> {
    [Signalled(ByWatcher, INT, c.deadline + 2 * SHARE, HIT)]
  }

  function Terminated(c: Config): seq<Act> {
    Interrupted(c) + [Signalled(ByWatcher, TERM, c.deadline + 3 * SHARE + INTERRUPTION_GRACE, HIT)]
  }

  function ReadyToKill(c: Config): State {
    var at := c.deadline + 3 * SHARE + INTERRUPTION_GRACE;
    Slow(at, Killing, at + TERMINATION_GRACE, Terminated(c))
  }

  lemma FirstSignal(c: Config)
    ensures Signalling(Slow(c.deadline + 2 * SHARE, Interrupting, c.deadline + SHARE, []), Interrupt({}))
      == Slow(c.deadline + 2 * SHARE, Terminating, c.deadline + 2 * SHARE + INTERRUPTION_GRACE, Interrupted(c))
  {
    assert [] + Interrupted(c) == Interrupted(c);
  }

  lemma SlowUntilTerminating(c: Config)
    requires 0 < c.deadline && SHARE <= c.slack
    ensures Reached(c, Slow(c.deadline + 2 * SHARE, Terminating, c.deadline + 2 * SHARE + INTERRUPTION_GRACE, Interrupted(c)), true)
  {
    SlowUntilInterrupting(c);
    SlowSignal(c, c.deadline + SHARE, Interrupting, c.deadline + SHARE, [], Interrupt({}), c.deadline + 2 * SHARE);
    FirstSignal(c);
  }

  lemma SlowUntilKilling(c: Config)
    requires 0 < c.deadline && SHARE <= c.slack
    ensures Reached(c, ReadyToKill(c), true)
  {
    SlowUntilTerminating(c);
    SlowSignal(c, c.deadline + 2 * SHARE, Terminating, c.deadline + 2 * SHARE + INTERRUPTION_GRACE, Interrupted(c),
               Terminate({}), c.deadline + 3 * SHARE + INTERRUPTION_GRACE);
  }

  lemma KillIsOverdue(c: Config)
    requires 0 < c.deadline && SHARE <= c.slack
    ensures Reached(c, ReadyToKill(c).(now := c.deadline + HARD_KILL_DELAY), true)
  {
    SlowUntilKilling(c);
    SlowlyPass(c, ReadyToKill(c), c.deadline + HARD_KILL_DELAY);
  }

  /** The anchor's hard kill strikes while the watcher is still waiting to send KILL. */
  lemma SlowWatcherIsOvertaken(c: Config) returns (t: State)
    requires 0 < c.deadline && TERMINATION_GRACE <= 4 * c.slack
    ensures Reachable(c, t) && t.w.phase == Killing
    ensures |t.log| == 3 && t.log[2].Signalled? && t.log[2].party == ByAnchor && t.log[2].at == TimerAt(c, t)
  {
    var late := ReadyToKill(c).(now := c.deadline + HARD_KILL_DELAY);
    KillIsOverdue(c);
    t := Apply(c, late, Anchored(Expire));
    Extend(c, late, Anchored(Expire), t, true);
    ReachedIsReachable(c, t, true);
  }

  /** The hard kill stays a last resort exactly if four late actions fit into the termination grace. */
  lemma HardKillIsALastResort(c: Config)
    requires 0 < c.deadline
    ensures (forall s | Reachable(c, s) && s.w.phase != Crashed :: forall act <- s.log :: act.party != ByAnchor)
       <==> 4 * c.slack < TERMINATION_GRACE
  {
    if 4 * c.slack < TERMINATION_GRACE {
      forall s | Reachable(c, s) && s.w.phase != Crashed ensures forall act <- s.log :: act.party != ByAnchor {
        ReachableIsInvariant(c, s);
      }
    } else {
      var t := SlowWatcherIsOvertaken(c);
      assert t.log[2] in t.log;
    }
  }
}
