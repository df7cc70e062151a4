/** What the watchdog guarantees over every run, and where a guarantee ends. */
module WatchdogTheorems {
  import opened ProcessTable
  import opened Values
  import opened Watchdog
  import opened WatchdogSafety
  import opened WatchdogTiming

  lemma ReachableIsInvariant(c: Config, s: State)
    requires Reachable(c, s)
    ensures Invariant(c, s)
  {
    var run, steps :| IsRun(c, run, steps) && run[|steps|] == s;
    Always(c, run, steps, |steps|);
  }

  // ----- Safety -----

  lemma {:induction false} BornLater(c: Config, run: seq<State>, steps: seq<Step>, n: nat)
    requires IsRun(c, run, steps) && n <= |steps|
    ensures run[0].table.births <= run[n].table.births
    ensures Born(run[n]) ==> run[0].table.births <= run[n].a.born
    ensures forall act <- run[n].log | act.Signalled? :: forall x <- act.hit :: run[0].table.births <= x.born
  {
    if n > 0 {
      BornLater(c, run, steps, n - 1);
      BirthsGrowAt(c, run, steps, n - 1);
    }
  }

  lemma BirthsGrowAt(c: Config, run: seq<State>, steps: seq<Step>, n: nat)
    requires IsRun(c, run, steps) && n < |steps|
    ensures var s, t := run[n], run[n + 1];
            && s.table.births <= t.table.births && (Born(t) ==> t.a.born == s.table.births || (Born(s) && t.a.born == s.a.born))
            && (forall act <- t.log | act.Signalled? && act !in s.log :: forall x <- act.hit :: Born(s) && s.a.born <= x.born)
  {
    Always(c, run, steps, n);
    assert Goes(c, run[n], steps[n], run[n + 1]);
    BirthsGrow(c, run[n], steps[n]);
  }

  lemma BirthsGrow(c: Config, s: State, step: Step)
    requires Invariant(c, s) && Enabled(c, s, step)
    ensures var t := Apply(c, s, step);
            && s.table.births <= t.table.births && (Born(t) ==> t.a.born == if Creates(step) then s.table.births else s.a.born)
            && t.log == LogAfter(s, step)
            && (ActOf(s, step).Some? && ActOf(s, step).value.Signalled? ==>
                  forall x <- ActOf(s, step).value.hit :: s.a.born <= x.born)
  {
    StepPerforms(c, s, step);
    ApplyFollows(c, s, step);
    if step.Elsewhere? { CallKeepsTable(s.table, step.e); }
    if Held(s) { RecipientsAreFollowers(s.table, s.a.pid, s.a.born); }
  }

  /**
    Every group signal reaches only members of the session the anchor founded, none of
    which existed when the run began, however PIDs are reused.
  */
  lemma SignalsStayInTheGroup(c: Config, run: seq<State>, steps: seq<Step>, n: nat)
    requires IsRun(c, run, steps) && n <= |steps|
    ensures forall act <- run[n].log | act.Signalled? ::
              forall x <- act.hit :: OwnGroup(run[n].a, x) && run[0].table.births <= x.born
  {
    Always(c, run, steps, n);
    BornLater(c, run, steps, n);
  }

  /**
    The watcher signals in the order of its finally block, and in full unless it crashes;
    the anchor is reaped at most once, after every signal, and never signalled again.
  */
  lemma SignalsThenReaps(c: Config, s: State)
    requires Reachable(c, s)
    ensures WatcherMoves(s.log) <= Plan(s.w.completed)
    ensures s.w.phase == Exited && Born(s) ==> WatcherMoves(s.log) == Plan(s.w.completed) && !Held(s)
    ensures forall i | 0 <= i < |s.log| - 1 :: !s.log[i].Reaped?
    ensures Holding(s.w.phase) ==> Held(s) && forall act <- s.log :: !act.Reaped?
    ensures s.w.completed ==> s.pipes.status == Some(s.w.code)
  {
    ReachableIsInvariant(c, s);
  }

  /**
    Why the anchor is reaped last: reaping a dead anchor frees its PID, and so its group ID,
    exactly if nobody is left in its group. A stranger may then bear the PID, lead a group of
    that number and take a signal meant for the reviewer's.
  */
  lemma EarlyReapingFreesTheGroup(t: Table, a: Pid, b: nat)
    requires WellFormed(t) && Leads(t, a, b) && Bears(t, a, b) && !Runs(t, a, b)
    ensures Free(Reap(t, a), a) <==> forall p <- t.procs :: t.procs[p].group == a ==> p == a
    ensures Free(Reap(t, a), a) ==>
              var u := Spawn(Reap(t, a), a);
              WellFormed(u) && Recipients(u, a) == {a} && u.procs[a].session != b
  {
    var r := Reap(t, a);
    CallKeeps(t, CReap(a), a, b);
    forall p <- t.procs | t.procs[p].group == a && p != a ensures p in r.procs && r.procs[p].group == a {}
    forall q <- r.procs ensures q in t.procs && q != a && r.procs[q].group == t.procs[q].group {}
    if Free(r, a) { SpawnKeeps(r, a); }
  }

  // ----- Liveness, as bounds no run exceeds -----

  /** What can still end the group once the watcher has crashed is the anchor's timer. */
  predicate Abandoned(s: State) {
    s.w.phase == Crashed && s.a.lost
  }

  function Limit(c: Config, s: State): int {
    Max(c.deadline, s.a.armedAt) + Max(HARD_KILL_DELAY + c.slack, INTERRUPTION_GRACE + TERMINATION_GRACE + 4 * c.slack)
  }

  /** Unless abandoned, every member of the anchor's group that never left it is dead by the limit. */
  lemma GroupDiesInTime(c: Config, s: State)
    requires Reachable(c, s) && HasArmed(s) && !Abandoned(s) && Limit(c, s) < s.now
    ensures NoLoyal(s)
  {
    ReachableIsInvariant(c, s);
  }

  /** An anchor that never armed its timer never had a reviewer to leave behind. */
  lemma NothingBeforeArming(c: Config, s: State)
    requires Reachable(c, s) && s.a.stage == Booting
    ensures NoCompanion(s)
    ensures Loyal(s.table, s.a.born) <= {s.a.pid} && (!Up(s) ==> NoLoyal(s))
  {
    ReachableIsInvariant(c, s);
    if !Up(s) { AloneMeansNoLoyal(s); }
  }

  /** With a slack below an eighth of a second the watcher's signals precede the anchor's hard kill. */
  lemma WatcherFinishesFirst(c: Config, s: State)
    requires Reachable(c, s) && HasArmed(s) && 4 * c.slack < TERMINATION_GRACE
    ensures forall act <- s.log | act.Signalled? && act.party == ByWatcher :: act.at < TimerAt(c, s)
    ensures s.w.phase != Crashed ==> forall act <- s.log :: act.party != ByAnchor
    ensures s.w.phase != Crashed ==> !AnchorEnabled(c, s, Expire)
  {
    ReachableIsInvariant(c, s);
    if Up(s) && s.w.phase != Crashed { WatcherComesFirst(c, s); }
  }

  /** The owner loses patience only with a watcher that never got as far as an anchor. */
  lemma OwnerOutwaitsTheWatcher(c: Config, s: State)
    requires Reachable(c, s) && 8 * c.slack < 2 * TERMINATION_GRACE + 1500
    requires OwnerEnabled(s, Escalate)
    ensures s.w.phase == Boot && !Born(s)
  {
    ReachableIsInvariant(c, s);
  }

  lemma TheWatcherCanAct(c: Config, s: State)
    requires Phases(s) && Timed(s.w.phase) && Due(c, s) <= s.now
    ensures exists w: WatcherStep :: w != Crash && WatcherEnabled(c, s, w)
  {
    var w := match s.w.phase
      case Spawning => SpawnFails
      case Delivering => Deliver
      case LoopTop => EnterLoop
      case Selecting => if c.deadline <= s.now then TimeOut else Wake
      case Interrupting => Interrupt({})
      case Terminating => Terminate({})
      case Killing => KillGroup
      case _ => Wait;
    assert WatcherEnabled(c, s, w);
  }

  /** Waiting for whoever is due never blocks: if time must not pass, the one it waits for can act. */
  lemma TimeNeverStops(c: Config, s: State)
    requires Reachable(c, s)
    ensures MayWait(c, s)
         || AnchorEnabled(c, s, Expire)
         || exists w: WatcherStep :: w != Crash && WatcherEnabled(c, s, w)
  {
    ReachableIsInvariant(c, s);
    if Timed(s.w.phase) && s.now >= Due(c, s) {
      TheWatcherCanAct(c, s);
    } else if !MayWait(c, s) {
      assert Up(s) && HasArmed(s) && TimerAt(c, s) <= s.now;
    }
  }
}
