/** How early the group can be signalled: never without cause, and never before a grace has passed. */
module WatchdogGraces {
  import opened ProcessTable
  import opened Values
  import opened Watchdog
  import opened WatchdogSafety
  import opened WatchdogTiming
  import opened WatchdogTheorems

  predicate IsWatchers(act: Act) {
    act.Signalled? && act.party == ByWatcher
  }

  predicate BeforeSignals(p: Phase) {
    p == Boot || p == Spawning || p == Delivering || p == LoopTop || p == Selecting || p == Interrupting
  }

  /** The signals before a phase that may act from entered on were sent a grace earlier. */
  predicate AreDue(s: State) {
    && (BeforeSignals(s.w.phase) ==> forall act <- s.log :: !IsWatchers(act))
    && (s.w.phase == Terminating ==>
          forall act <- s.log | IsWatchers(act) :: act.sig == INT && act.at + 1000 <= s.w.entered)
    && (s.w.phase == Killing ==>
          forall act <- s.log | IsWatchers(act) ::
            (act.sig == INT && act.at + 1500 <= s.w.entered) || (act.sig == TERM && act.at + 500 <= s.w.entered))
  }

  /** INT, a second later TERM, and half a second later KILL. */
  predicate AreSpaced(log: seq<Act>) {
    forall a <- log, b <- log | IsWatchers(a) && IsWatchers(b) ::
      && (a.sig == INT && b.sig == TERM ==> a.at + 1000 <= b.at)
      && (a.sig == TERM && b.sig == KILL ==> a.at + 500 <= b.at)
      && (a.sig == INT && b.sig == KILL ==> a.at + 1500 <= b.at)
  }

  /** The anchor's own kill waits for two seconds after the deadline, and after its arming. */
  predicate IsPatient(c: Config, s: State) {
    forall act <- s.log | act.Signalled? && act.party == ByAnchor ::
      act.sig == KILL && HasArmed(s) && c.deadline + 2000 <= act.at && s.a.armedAt + 2000 <= act.at
  }

  /** What lets the watcher turn on the group: the deadline, a closed control pipe, or a dead anchor. */
  predicate HasCause(c: Config, s: State) {
    c.deadline <= s.now || s.pipes.closed.Some? || !Up(s)
  }

  predicate IsJust(c: Config, s: State) {
    && (s.pipes.statusAt.Some? && s.pipes.status == None ==> !Up(s))
    && (s.w.phase == Interrupting || s.w.phase == Terminating || (s.w.phase == Killing && !s.w.completed) ==> HasCause(c, s))
  }

  predicate NothingIsEarly(c: Config, s: State) {
    AreDue(s) && AreSpaced(s.log) && IsPatient(c, s) && IsJust(c, s)
  }

  lemma DueStep(c: Config, s: State, step: Step, t: State)
    requires AreDue(s) && Enabled(c, s, step) && Follows(c, s, step, t)
    ensures AreDue(t)
  {
    if ActOf(s, step).None? {
      assert t.log == s.log;
    }
  }

  lemma SpacedStep(c: Config, s: State, step: Step)
    requires AreDue(s) && AreSpaced(s.log) && Enabled(c, s, step)
    ensures AreSpaced(LogAfter(s, step))
  {
    if step.Watched? && ActOf(s, step).Some? {
      SignalsInTurn(c, s, step.w);
    }
  }

  /** When the watcher sends a signal, every earlier one is a grace old. */
  lemma SignalsInTurn(c: Config, s: State, w: WatcherStep)
    requires AreDue(s) && Enabled(c, s, Watched(w)) && ActOf(s, Watched(w)).Some?
    ensures var b := ActOf(s, Watched(w)).value;
      IsWatchers(b) ==> forall a <- s.log | IsWatchers(a) ::
        && b.sig != INT && a.sig != KILL && a.sig != b.sig
        && (a.sig == INT && b.sig == TERM ==> a.at + 1000 <= b.at)
        && (a.sig == TERM && b.sig == KILL ==> a.at + 500 <= b.at)
        && (a.sig == INT && b.sig == KILL ==> a.at + 1500 <= b.at)
  {}

  lemma PatientStep(c: Config, s: State, step: Step, t: State)
    requires Phases(s) && IsPatient(c, s) && Enabled(c, s, step) && Follows(c, s, step, t)
    ensures IsPatient(c, t)
  {}

  lemma JustStep(c: Config, s: State, step: Step)
    requires Phases(s) && IsJust(c, s) && Enabled(c, s, step)
    requires Born(s) ==> (Up(Apply(c, s, step)) ==> Up(s))
    ensures IsJust(c, Apply(c, s, step))
  {
    ApplyFollows(c, s, step);
  }

  lemma NothingIsEarlyAt(c: Config, run: seq<State>, steps: seq<Step>, i: nat)
    requires IsRun(c, run, steps) && i < |steps| && NothingIsEarly(c, run[i])
    ensures NothingIsEarly(c, run[i + 1])
  {
    var s, step, t := run[i], steps[i], run[i + 1];
    Always(c, run, steps, i);
    assert Goes(c, s, step, t);
    ApplyFollows(c, s, step);
    if Born(s) && !Creates(step) { StepEffect(c, s, step); }
    DueStep(c, s, step, t);
    SpacedStep(c, s, step);
    PatientStep(c, s, step, t);
    JustStep(c, s, step);
  }

  lemma {:induction false} AlwaysInTime(c: Config, run: seq<State>, steps: seq<Step>, n: nat)
    requires IsRun(c, run, steps) && n <= |steps|
    ensures NothingIsEarly(c, run[n])
  {
    if n > 0 {
      AlwaysInTime(c, run, steps, n - 1);
      NothingIsEarlyAt(c, run, steps, n - 1);
    }
  }

  /**
   * In every run the reviewer has a full second between INT and TERM and another half between TERM and KILL, and the
   * anchor's own KILL comes two seconds after both the deadline and its arming at the earliest.
   */
  lemma SignalsAreNeverEarly(c: Config, run: seq<State>, steps: seq<Step>, n: nat)
    requires IsRun(c, run, steps) && n <= |steps|
    ensures forall a <- run[n].log, b <- run[n].log |
        && a.Signalled? && b.Signalled? && a.party == b.party == ByWatcher ::
      && (a.sig == INT && b.sig == TERM ==> a.at + 1000 <= b.at)
      && (a.sig == TERM && b.sig == KILL ==> a.at + 500 <= b.at)
    ensures forall act <- run[n].log | act.Signalled? && act.party == ByAnchor ::
      act.sig == KILL && c.deadline + 2000 <= act.at && run[n].a.armedAt + 2000 <= act.at
  {
    AlwaysInTime(c, run, steps, n);
    assert forall act <- run[n].log | act.Signalled? && act.party == ByWatcher :: IsWatchers(act);
  }

  /** The watcher interrupts only at the deadline, after the owner let go of the control pipe, or with the anchor dead. */
  lemma InterruptionHasCause(c: Config, run: seq<State>, steps: seq<Step>, n: nat, victims: set<Pid>)
    requires IsRun(c, run, steps) && n < |steps| && steps[n] == Watched(Interrupt(victims))
    ensures c.deadline <= run[n].now || run[n].pipes.closed.Some? || !Runs(run[n].table, run[n].a.pid, run[n].a.born)
  {
    Always(c, run, steps, n);
    AlwaysInTime(c, run, steps, n);
    assert Goes(c, run[n], steps[n], run[n + 1]);
  }
}
