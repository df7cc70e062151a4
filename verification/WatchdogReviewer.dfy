/** What completion says of the reviewer: it has ended, and the code is its own. */
module WatchdogReviewer {
  import opened ProcessTable
  import opened Values
  import opened Watchdog
  import opened WatchdogSafety
  import opened WatchdogTiming
  import opened WatchdogTheorems

  /** Birth number b is taken, and whoever bears it has this PID. */
  ghost predicate HasPlace(t: Table, child: Pid, b: nat) {
    b < t.births && forall p <- t.procs | t.procs[p].born == b :: p == child
  }

  ghost predicate HasEnded(t: Table, b: nat) {
    forall p <- t.procs | t.procs[p].born == b :: !t.procs[p].alive
  }

  /** From its launch on the reviewer is the one waited for, until it has ended and been reported. */
  ghost predicate IsAwaited(s: State, child: Pid, b: nat) {
    HasPlace(s.table, child, b) && (s.a.stage == Running(child, b) || (s.a.stage == Reported && HasEnded(s.table, b)))
  }

  lemma EffectKeepsPlace(t: Table, effect: Effect, child: Pid, b: nat)
    requires MayPerform(t, effect) && HasPlace(t, child, b)
    ensures HasPlace(Perform(t, effect), child, b)
    ensures HasEnded(t, b) ==> HasEnded(Perform(t, effect), b)
  {}

  lemma ForkHasPlace(t: Table, parent: Pid, child: Pid)
    requires WellFormed(t) && Alive(t, parent)
    ensures HasPlace(Fork(t, parent, child), child, t.births)
  {}

  lemma LaunchForks(s: State, child: Pid)
    ensures EffectOf(s, Anchored(Launch(child))) == Calls(CFork(s.a.pid, child))
    ensures AnchorAfter(s, Anchored(Launch(child))).stage == Running(child, s.table.births)
  {}

  lemma LaunchIsAwaited(c: Config, s: State, child: Pid, t: State)
    requires Founded(s) && Goes(c, s, Anchored(Launch(child)), t)
    ensures IsAwaited(t, child, s.table.births)
  {
    var step := Anchored(Launch(child));
    StepPerforms(c, s, step);
    ApplyFollows(c, s, step);
    LaunchForks(s, child);
    ForkHasPlace(s.table, s.a.pid, child);
  }

  lemma AwaitedStep(c: Config, s: State, step: Step, t: State, child: Pid, b: nat)
    requires Invariant(c, s) && Goes(c, s, step, t) && IsAwaited(s, child, b)
    ensures IsAwaited(t, child, b)
  {
    StepPerforms(c, s, step);
    ApplyFollows(c, s, step);
    EffectKeepsPlace(s.table, EffectOf(s, step), child, b);
    AwaitedStage(c, s, step, t.a.stage, child, b);
  }

  lemma AwaitedStage(c: Config, s: State, step: Step, stage: Stage, child: Pid, b: nat)
    requires Phases(s) && Enabled(c, s, step) && IsAwaited(s, child, b) && stage == AnchorAfter(s, step).stage
    ensures stage == s.a.stage || (stage == Reported && HasEnded(s.table, b))
  {}

  lemma AwaitedFirst(c: Config, run: seq<State>, steps: seq<Step>, k: nat, child: Pid)
    requires IsRun(c, run, steps) && k < |steps| && steps[k] == Anchored(Launch(child))
    ensures IsAwaited(run[k + 1], child, run[k].table.births)
  {
    Always(c, run, steps, k);
    assert Goes(c, run[k], steps[k], run[k + 1]);
    LaunchIsAwaited(c, run[k], child, run[k + 1]);
  }

  lemma AwaitedNext(c: Config, run: seq<State>, steps: seq<Step>, i: nat, child: Pid, b: nat)
    requires IsRun(c, run, steps) && i < |steps| && IsAwaited(run[i], child, b)
    ensures IsAwaited(run[i + 1], child, b)
  {
    Always(c, run, steps, i);
    assert Goes(c, run[i], steps[i], run[i + 1]);
    AwaitedStep(c, run[i], steps[i], run[i + 1], child, b);
  }

  lemma {:induction false} AwaitedUntil(c: Config, run: seq<State>, steps: seq<Step>, k: nat, child: Pid, b: nat, j: nat)
    requires IsRun(c, run, steps) && k < j <= |steps| && steps[k] == Anchored(Launch(child)) && b == run[k].table.births
    ensures IsAwaited(run[j], child, b)
  {
    if j == k + 1 {
      AwaitedFirst(c, run, steps, k, child);
    } else {
      AwaitedUntil(c, run, steps, k, child, b, j - 1);
      AwaitedNext(c, run, steps, j - 1, child, b);
    }
  }

  /** Once the watcher is complete, the reviewer that was launched is dead. */
  lemma ReviewerEndsBeforeCompletion(c: Config, run: seq<State>, steps: seq<Step>, k: nat, child: Pid, j: nat)
    requires IsRun(c, run, steps) && k < j <= |steps| && steps[k] == Anchored(Launch(child))
    requires run[j].w.completed
    ensures var procs, b := run[j].table.procs, run[k].table.births;
            forall p <- procs | procs[p].born == b :: !procs[p].alive
  {
    AwaitedUntil(c, run, steps, k, child, run[k].table.births, j);
    Always(c, run, steps, j);
  }

  /** The watcher sends KILL to a reviewer that is alive only after INT and TERM. */
  lemma LiveReviewerIsWarned(c: Config, run: seq<State>, steps: seq<Step>, k: nat, child: Pid, m: nat, p: Pid)
    requires IsRun(c, run, steps) && k < m < |steps| && steps[k] == Anchored(Launch(child))
    requires steps[m] == Watched(KillGroup)
    requires p in run[m].table.procs && run[m].table.procs[p].born == run[k].table.births && run[m].table.procs[p].alive
    ensures WatcherMoves(run[m].log) == [Sends(INT), Sends(TERM)]
  {
    Always(c, run, steps, m);
    assert Goes(c, run[m], steps[m], run[m + 1]);
    if run[m].w.completed {
      ReviewerEndsBeforeCompletion(c, run, steps, k, child, m);
    }
  }

  /** After a report nothing else is ever written in its place. */
  predicate HasToldOnce(s: State, code: int) {
    s.a.stage == Reported && (s.pipes.status == None || s.pipes.status == Some(code))
  }

  lemma ToldStep(c: Config, s: State, step: Step, t: State, code: int)
    requires Invariant(c, s) && Goes(c, s, step, t) && HasToldOnce(s, code)
    ensures HasToldOnce(t, code)
  {
    ApplyFollows(c, s, step);
  }

  lemma ReportTells(c: Config, s: State, returncode: int, t: State, code: int)
    requires Answered(s) && Goes(c, s, Anchored(Report(returncode)), t)
    requires code == if returncode < 0 then 128 + -returncode else returncode
    ensures HasToldOnce(t, code)
  {
    ApplyFollows(c, s, Anchored(Report(returncode)));
  }

  lemma ToldFirst(c: Config, run: seq<State>, steps: seq<Step>, m: nat, returncode: int, code: int)
    requires IsRun(c, run, steps) && m < |steps| && steps[m] == Anchored(Report(returncode))
    requires code == if returncode < 0 then 128 + -returncode else returncode
    ensures HasToldOnce(run[m + 1], code)
  {
    Always(c, run, steps, m);
    assert Goes(c, run[m], steps[m], run[m + 1]);
    ReportTells(c, run[m], returncode, run[m + 1], code);
  }

  lemma ToldNext(c: Config, run: seq<State>, steps: seq<Step>, i: nat, code: int)
    requires IsRun(c, run, steps) && i < |steps| && HasToldOnce(run[i], code)
    ensures HasToldOnce(run[i + 1], code)
  {
    Always(c, run, steps, i);
    assert Goes(c, run[i], steps[i], run[i + 1]);
    ToldStep(c, run[i], steps[i], run[i + 1], code);
  }

  lemma {:induction false} ToldUntil(c: Config, run: seq<State>, steps: seq<Step>, m: nat, returncode: int, code: int, j: nat)
    requires IsRun(c, run, steps) && m < j <= |steps| && steps[m] == Anchored(Report(returncode))
    requires code == if returncode < 0 then 128 + -returncode else returncode
    ensures HasToldOnce(run[j], code)
  {
    if j == m + 1 {
      ToldFirst(c, run, steps, m, returncode, code);
    } else {
      ToldUntil(c, run, steps, m, returncode, code, j - 1);
      ToldNext(c, run, steps, j - 1, code);
    }
  }

  /** The watcher completes with the reviewer's own code, or with 128 and the signal that ended it. */
  lemma CodeIsTheReviewers(c: Config, run: seq<State>, steps: seq<Step>, m: nat, returncode: int, j: nat)
    requires IsRun(c, run, steps) && m < j <= |steps| && steps[m] == Anchored(Report(returncode))
    requires run[j].w.completed
    ensures run[j].w.code == if returncode < 0 then 128 + -returncode else returncode
  {
    ToldUntil(c, run, steps, m, returncode, if returncode < 0 then 128 + -returncode else returncode, j);
    Always(c, run, steps, j);
  }
}
