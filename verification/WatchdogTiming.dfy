/** How long anything in the reviewer's group can outlive the deadline. */
module WatchdogTiming {
  import opened ProcessTable
  import opened Values
  import opened Watchdog
  import opened WatchdogSafety

  /** t is what s becomes by the step, its table apart. */
  predicate Follows(c: Config, s: State, step: Step, t: State) {
    && t.now == (if step == Tick then s.now + 1 else s.now)
    && t.owner == OwnerAfter(s, step)
    && t.w == WatcherAfter(c, s, step)
    && t.a == AnchorAfter(s, step)
    && t.log == LogAfter(s, step)
    && t.pipes.(statusAt := None) == PipesAfter(s, step).(statusAt := None)
    && (t.pipes.statusAt == PipesAfter(s, step).statusAt || t.pipes.statusAt == Some(t.now))
    && (s.pipes.statusAt.Some? ==> t.pipes.statusAt.Some?)
  }

  lemma ApplyFollows(c: Config, s: State, step: Step)
    requires Enabled(c, s, step)
    ensures Follows(c, s, step, Apply(c, s, step))
  {}

  // ----- Every phase is left in time -----

  /** What has been recorded lies in the past, and the hard kill is not overdue. */
  predicate Clocks(c: Config, s: State) {
    && (Up(s) && HasArmed(s) ==> s.now <= TimerAt(c, s) + c.slack)
    && (s.pipes.statusAt.Some? ==> s.pipes.statusAt.value <= s.now)
    && (s.pipes.closed.Some? ==> s.pipes.closed.value <= s.now)
    && (s.pipes.delivered.Some? ==> s.pipes.delivered.value <= s.now)
    && (s.owner.Closing? ==> s.pipes.closed == Some(s.owner.since))
    && (HasArmed(s) ==> s.pipes.delivered.Some? && s.pipes.delivered.value <= s.a.armedAt <= s.now)
    && (s.w.phase == Spawning || s.w.phase == Delivering ==> s.pipes.delivered == None)
    && (s.w.phase == LoopTop ==> s.pipes.delivered == Some(s.w.entered))
  }

  /** The watcher completes with the code the anchor wrote, and the anchor writes once. */
  predicate Answered(s: State) {
    && (s.pipes.status.Some? ==> s.a.stage == Reported)
    && (s.w.completed ==> s.pipes.status == Some(s.w.code))
  }

  predicate OnTime(c: Config, s: State) {
    && (Timed(s.w.phase) ==> s.now <= Due(c, s))
    && (Timed(s.w.phase) ==>
          s.w.entered <= s.now + (if s.w.phase == Terminating then INTERRUPTION_GRACE
                                  else if s.w.phase == Killing then TERMINATION_GRACE else 0))
    && (s.w.phase == Selecting ==> s.w.entered < c.deadline)
  }

  /** How late a phase can begin, counted from the deadline or the delivery. */
  predicate AfterDeadline(c: Config, s: State) {
    s.pipes.delivered.Some? ==>
      var base, l := Max(c.deadline, s.pipes.delivered.value), c.slack;
      && (s.w.phase == Interrupting ==> s.w.entered <= base + l)
      && (s.w.phase == Terminating ==> s.w.entered <= base + INTERRUPTION_GRACE + 2 * l)
      && (s.w.phase == Killing ==> s.w.entered <= base + INTERRUPTION_GRACE + TERMINATION_GRACE + 3 * l)
  }

  /** How late a phase can begin, counted from when the control pipe was closed. */
  function Lateness(phase: Phase, l: nat): int {
    match phase
    case Delivering => l
    case LoopTop => 2 * l
    case Selecting => 3 * l
    case Interrupting => 4 * l
    case Terminating => 5 * l + INTERRUPTION_GRACE
    case Killing => 6 * l + INTERRUPTION_GRACE + TERMINATION_GRACE
    case Reaping => 7 * l + INTERRUPTION_GRACE + TERMINATION_GRACE
    case _ => 0
  }

  predicate AfterClosing(c: Config, s: State) {
    s.pipes.closed.Some? && Timed(s.w.phase) ==> s.w.entered <= s.pipes.closed.value + Lateness(s.w.phase, c.slack)
  }

  lemma WatcherKeepsClocks(c: Config, s: State, step: Step, t: State)
    requires Clocks(c, s) && Phases(s) && Enabled(c, s, step) && Follows(c, s, step, t) && step.Watched?
    requires Born(s) ==> (Up(t) ==> Up(s))
    ensures Clocks(c, t)
  {}

  lemma OthersKeepClocks(c: Config, s: State, step: Step, t: State)
    requires Clocks(c, s) && Phases(s) && Enabled(c, s, step) && Follows(c, s, step, t) && !step.Watched?
    requires Born(s) ==> (Up(t) ==> Up(s))
    ensures Clocks(c, t)
  {}

  lemma ClocksStep(c: Config, s: State, step: Step, t: State)
    requires Clocks(c, s) && Phases(s) && Enabled(c, s, step) && Follows(c, s, step, t)
    requires Born(s) ==> (Up(t) ==> Up(s))
    ensures Clocks(c, t)
  {
    if step.Watched? {
      WatcherKeepsClocks(c, s, step, t);
    } else {
      OthersKeepClocks(c, s, step, t);
    }
  }

  lemma AnsweredStep(c: Config, s: State, step: Step, t: State)
    requires Answered(s) && Phases(s) && InOrder(s) && Enabled(c, s, step)
    requires t.w == WatcherAfter(c, s, step) && t.a == AnchorAfter(s, step) && t.pipes.status == PipesAfter(s, step).status
    ensures Answered(t)
  {}

  lemma OnTimeStep(c: Config, s: State, step: Step, t: State)
    requires OnTime(c, s) && Clocks(c, s) && Enabled(c, s, step) && Follows(c, s, step, t)
    ensures OnTime(c, t)
  {}

  lemma AfterDeadlineStep(c: Config, s: State, step: Step, t: State)
    requires OnTime(c, s) && Clocks(c, s) && AfterDeadline(c, s) && Phases(s) && Enabled(c, s, step)
    requires t.w == WatcherAfter(c, s, step) && t.pipes.delivered == PipesAfter(s, step).delivered
    ensures AfterDeadline(c, t)
  {}

  lemma AfterClosingStep(c: Config, s: State, step: Step, t: State)
    requires OnTime(c, s) && Clocks(c, s) && AfterClosing(c, s) && Enabled(c, s, step)
    requires t.w == WatcherAfter(c, s, step) && t.pipes.closed == PipesAfter(s, step).closed
    ensures AfterClosing(c, t)
  {}

  // ----- Who can still end the group -----

  ghost predicate Guarded(s: State) {
    && (s.a.stage == Booting || s.a.stage == Armed ==> NoCompanion(s))
    && (Born(s) && !Up(s) && !NoLoyal(s) ==> s.a.lost && HasArmed(s))
    && (Born(s) && (s.w.phase == Reaping || s.w.phase == Exited) ==> NoLoyal(s))
  }

  lemma AloneMeansNoLoyal(s: State)
    requires Founded(s) && Born(s) && NoCompanion(s) && !Up(s)
    ensures NoLoyal(s)
  {}

  lemma WatcherKeepsGuard(c: Config, s: State, step: Step, t: State)
    requires Phases(s) && Guarded(s) && Enabled(c, s, step) && Follows(c, s, step, t) && step.Watched?
    requires Creates(step) ==> Up(t) && NoCompanion(t)
    requires Born(t) && !Up(t) && NoCompanion(t) ==> NoLoyal(t)
    requires Born(s) ==>
               && (Up(t) <==> Up(s) && !Falls(s, step))
               && (NoCompanion(s) && !Launches(step) ==> NoCompanion(t))
               && (NoLoyal(s) || (Held(s) && (step == Watched(KillGroup) || step == Anchored(Expire))) ==> NoLoyal(t))
    ensures Guarded(t)
  {}

  lemma OthersKeepGuard(c: Config, s: State, step: Step, t: State)
    requires Phases(s) && Guarded(s) && Enabled(c, s, step) && Follows(c, s, step, t) && !step.Watched?
    requires Creates(step) ==> Up(t) && NoCompanion(t)
    requires Born(t) && !Up(t) && NoCompanion(t) ==> NoLoyal(t)
    requires Born(s) ==>
               && (Up(t) <==> Up(s) && !Falls(s, step))
               && (NoCompanion(s) && !Launches(step) ==> NoCompanion(t))
               && (NoLoyal(s) || (Held(s) && (step == Watched(KillGroup) || step == Anchored(Expire))) ==> NoLoyal(t))
    ensures Guarded(t)
  {}

  lemma GuardedStep(c: Config, s: State, step: Step, t: State)
    requires Phases(s) && Guarded(s) && Enabled(c, s, step) && Follows(c, s, step, t)
    requires Creates(step) ==> Up(t) && NoCompanion(t)
    requires Born(t) && !Up(t) && NoCompanion(t) ==> NoLoyal(t)
    requires Born(s) ==>
               && (Up(t) <==> Up(s) && !Falls(s, step))
               && (NoCompanion(s) && !Launches(step) ==> NoCompanion(t))
               && (NoLoyal(s) || (Held(s) && (step == Watched(KillGroup) || step == Anchored(Expire))) ==> NoLoyal(t))
    ensures Guarded(t)
  {
    if step.Watched? {
      WatcherKeepsGuard(c, s, step, t);
    } else {
      OthersKeepGuard(c, s, step, t);
    }
  }

  // ----- When the signals were sent -----

  function SequenceEnd(c: Config, delivered: int): int {
    Max(c.deadline, delivered) + INTERRUPTION_GRACE + TERMINATION_GRACE + 4 * c.slack
  }

  predicate SignalsOnTime(c: Config, s: State) {
    && (s.w.phase == Delivering ==> s.log == [])
    && (forall act <- s.log | act.Signalled? && act.party == ByWatcher && s.pipes.delivered.Some? ::
          act.at <= SequenceEnd(c, s.pipes.delivered.value))
    && (4 * c.slack < TERMINATION_GRACE ==> forall act <- s.log | act.party == ByAnchor :: s.w.phase == Crashed)
  }

  /** The watcher's KILL is due before the anchor's, whoever is late. */
  lemma WatcherComesFirst(c: Config, s: State)
    requires Phases(s) && Clocks(c, s) && OnTime(c, s) && AfterDeadline(c, s)
    requires Up(s) && HasArmed(s) && s.w.phase != Crashed
    ensures s.now <= SequenceEnd(c, s.pipes.delivered.value)
    ensures 4 * c.slack < TERMINATION_GRACE ==> s.now < TimerAt(c, s)
  {}

  lemma WatcherActsOnTime(c: Config, s: State, step: Step)
    requires Clocks(c, s) && OnTime(c, s) && AfterDeadline(c, s) && Enabled(c, s, step) && step.Watched? && ActOf(s, step).Some?
    ensures ActOf(s, step).value.party == ByWatcher && ActOf(s, step).value.at == s.now
    ensures ActOf(s, step).value.Signalled? && s.pipes.delivered.Some? ==> s.now <= SequenceEnd(c, s.pipes.delivered.value)
    ensures s.w.phase != Spawning && s.w.phase != Boot
  {}

  lemma WatcherSignalsOnTime(c: Config, s: State, step: Step, t: State)
    requires Phases(s) && Clocks(c, s) && OnTime(c, s) && AfterDeadline(c, s) && SignalsOnTime(c, s)
    requires Enabled(c, s, step) && Follows(c, s, step, t) && step.Watched?
    ensures SignalsOnTime(c, t)
  {
    if ActOf(s, step).Some? {
      WatcherActsOnTime(c, s, step);
    } else {
      assert t.log == s.log;
    }
  }

  lemma OthersSignalOnTime(c: Config, s: State, step: Step, t: State)
    requires Phases(s) && Clocks(c, s) && OnTime(c, s) && AfterDeadline(c, s) && SignalsOnTime(c, s)
    requires Enabled(c, s, step) && Follows(c, s, step, t) && !step.Watched?
    ensures SignalsOnTime(c, t)
  {
    if step == Anchored(Expire) && s.w.phase != Crashed { WatcherComesFirst(c, s); }
  }

  lemma SignalsOnTimeStep(c: Config, s: State, step: Step, t: State)
    requires Phases(s) && Clocks(c, s) && OnTime(c, s) && AfterDeadline(c, s) && SignalsOnTime(c, s)
    requires Enabled(c, s, step) && Follows(c, s, step, t)
    ensures SignalsOnTime(c, t)
  {
    if step.Watched? {
      WatcherSignalsOnTime(c, s, step, t);
    } else {
      OthersSignalOnTime(c, s, step, t);
    }
  }

  // ----- Runs -----

  ghost predicate Invariant(c: Config, s: State) {
    && Sound(s) && OnTarget(s) && InOrder(s) && ReapsLast(s) && Answered(s)
    && Clocks(c, s) && OnTime(c, s) && AfterDeadline(c, s) && AfterClosing(c, s)
    && Guarded(s) && SignalsOnTime(c, s)
  }

  lemma SafetyStep(c: Config, s: State, step: Step)
    requires Sound(s) && OnTarget(s) && InOrder(s) && ReapsLast(s) && Answered(s) && Enabled(c, s, step)
    ensures var t := Apply(c, s, step); OnTarget(t) && InOrder(t) && ReapsLast(t) && Answered(t)
  {
    var t := Apply(c, s, step);
    StepPerforms(c, s, step);
    ApplyFollows(c, s, step);
    if Born(s) && !Creates(step) { StepEffect(c, s, step); }
    OnTargetStep(c, s, step, t);
    InOrderStep(c, s, step, t);
    ReapsLastStep(c, s, step, t);
    AnsweredStep(c, s, step, t);
  }

  lemma TimingStep(c: Config, s: State, step: Step)
    requires Invariant(c, s) && Enabled(c, s, step)
    ensures var t := Apply(c, s, step);
            Clocks(c, t) && OnTime(c, t) && AfterDeadline(c, t) && AfterClosing(c, t) && SignalsOnTime(c, t)
  {
    var t := Apply(c, s, step);
    ApplyFollows(c, s, step);
    if Born(s) && !Creates(step) { StepEffect(c, s, step); }
    ClocksStep(c, s, step, t);
    OnTimeStep(c, s, step, t);
    AfterDeadlineStep(c, s, step, t);
    AfterClosingStep(c, s, step, t);
    SignalsOnTimeStep(c, s, step, t);
  }

  lemma GuardStep(c: Config, s: State, step: Step)
    requires Sound(s) && Guarded(s) && Enabled(c, s, step)
    ensures Sound(Apply(c, s, step)) && Guarded(Apply(c, s, step))
  {
    var t := Apply(c, s, step);
    SoundStep(c, s, step);
    ApplyFollows(c, s, step);
    if Creates(step) { SpawnKeeps(s.table, step.w.pid); } else if Born(s) { StepEffect(c, s, step); }
    if Born(t) && !Up(t) && NoCompanion(t) { AloneMeansNoLoyal(t); }
    GuardedStep(c, s, step, t);
  }

  lemma {:induction false} Always(c: Config, run: seq<State>, steps: seq<Step>, n: nat)
    requires IsRun(c, run, steps) && n <= |steps|
    ensures Invariant(c, run[n])
  {
    if n > 0 {
      Always(c, run, steps, n - 1);
      assert Goes(c, run[n - 1], steps[n - 1], run[n]);
      InvariantStep(c, run[n - 1], steps[n - 1]);
    }
  }

  lemma InvariantStep(c: Config, s: State, step: Step)
    requires Invariant(c, s) && Enabled(c, s, step)
    ensures Invariant(c, Apply(c, s, step))
  {
    GuardStep(c, s, step);
    SafetyStep(c, s, step);
    TimingStep(c, s, step);
  }
}
