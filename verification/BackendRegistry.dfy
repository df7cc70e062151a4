/** The backend registry under concurrent ensure, stop and prune calls: updates are locked, earlier reads are not. */
module BackendRegistry {
  import opened Values

  datatype Process = Process(adapter: string, port: int, pid: Option<int>, createdAt: string)

  type Registry = map<string, Process>

  /** Where one caller stands in its current call. */
  datatype Stage =
    | Idle
    | Checking(q: string, adapter: string, seen: Process)    // ensure found an entry
    | Starting(q: string, adapter: string)                   // ensure is about to start a process
    | Adding(q: string, started: Process)                    // ensure has started one
    | Stopping(q: string, seen: Process)                     // stop found an entry
    | Removing(q: string, seen: Process, tornDown: bool)     // stop is about to remove it

  datatype State = State(entries: Registry, adapters: set<string>, callers: seq<Stage>)

  datatype Step =
    | EnsureRead(who: nat, q: string, adapter: string)
    | Check(who: nat, healthy: bool)
    | Start(who: nat, outcome: Option<Process>)
    | Add(who: nat)
    | StopRead(who: nat, q: string)
    | Teardown(who: nat, ok: bool)
    | Remove(who: nat)
    | Prune(alive: set<int>)
    | Crash(who: nat)

  function Get(r: Registry, q: string): Option<Process> {
    if q in r then Some(r[q]) else None
  }

  /** What pruning keeps: entries without a process id, and those whose process is alive. */
  function Pruned(r: Registry, alive: set<int>): Registry {
    map q <- r | r[q].pid.None? || r[q].pid.value in alive :: r[q]
  }

  predicate Enabled(s: State, step: Step) {
    match step
    case Prune(_) => true
    case _ =>
      step.who < |s.callers| &&
      var stage := s.callers[step.who];
      match step
      case EnsureRead(_, _, _) => stage.Idle?
      case StopRead(_, _) => stage.Idle?
      case Check(_, _) => stage.Checking?
      case Start(_, _) => stage.Starting?
      case Add(_) => stage.Adding?
      case Teardown(_, _) => stage.Stopping?
      case Remove(_) => stage.Removing?
      case _ => true
  }

  /** The registry after a step; only the locked updates write it. */
  function Entries(s: State, step: Step): Registry
    requires Enabled(s, step)
  {
    match step
    case Check(who, healthy) => if healthy then s.entries else s.entries - {s.callers[who].q}
    case Add(who) => s.entries[s.callers[who].q := s.callers[who].started]
    case Remove(who) => s.entries - {s.callers[who].q}
    case Prune(alive) => Pruned(s.entries, alive)
    case _ => s.entries
  }

  /** Where a step leaves its caller. A raised error, a reuse and a finished call all end in Idle. */
  function Next(s: State, step: Step): Stage
    requires Enabled(s, step) && !step.Prune?
  {
    match step
    case EnsureRead(who, q, adapter) =>
      if adapter !in s.adapters then Idle
      else if q in s.entries then Checking(q, adapter, s.entries[q]) else Starting(q, adapter)
    case Check(who, healthy) => if healthy then Idle else Starting(s.callers[who].q, s.callers[who].adapter)
    case Start(who, outcome) => if outcome.Some? then Adding(s.callers[who].q, outcome.value) else Idle
    case StopRead(who, q) => if q in s.entries then Stopping(q, s.entries[q]) else Idle
    case Teardown(who, ok) =>
      var stage := s.callers[who];
      if stage.seen.adapter !in s.adapters then Removing(stage.q, stage.seen, false)
      else if ok then Removing(stage.q, stage.seen, true)
      else Idle
    case _ => Idle
  }

  function Apply(s: State, step: Step): State
    requires Enabled(s, step)
  {
    if step.Prune? then s.(entries := Entries(s, step))
    else s.(entries := Entries(s, step), callers := s.callers[step.who := Next(s, step)])
  }

  ghost predicate IsRun(run: seq<State>, steps: seq<Step>) {
    && |run| == |steps| + 1 && (forall stage <- run[0].callers :: stage == Idle)
    && forall i :: 0 <= i < |steps| ==> Enabled(run[i], steps[i]) && run[i + 1] == Apply(run[i], steps[i])
  }

  predicate IsBy(step: Step, who: nat) {
    !step.Prune? && step.who == who
  }

  predicate IsRead(step: Step, who: nat, q: string) {
    (step.EnsureRead? || step.StopRead?) && step.who == who && step.q == q
  }

  /** The caller's steps in [i, j) neither begin nor break off a call. */
  predicate IsWithinCall(steps: seq<Step>, who: nat, i: int, j: int)
    requires 0 <= i && j <= |steps|
  {
    forall m :: i <= m < j && IsBy(steps[m], who) ==> !steps[m].EnsureRead? && !steps[m].StopRead? && !steps[m].Crash?
  }

  predicate IsIdleFor(steps: seq<Step>, who: nat, i: int, j: int)
    requires 0 <= i && j <= |steps|
  {
    forall m :: i <= m < j ==> !IsBy(steps[m], who)
  }

  /** Step r is the read with which the caller's call in progress at i began. */
  predicate BeganAt(steps: seq<Step>, who: nat, q: string, r: int, i: int)
    requires i <= |steps|
  {
    0 <= r < i && IsRead(steps[r], who, q) && IsWithinCall(steps, who, r + 1, i)
  }

  /** Step r is a stop's read of p, step k its only step since. */
  predicate IsTeardown(run: seq<State>, steps: seq<Step>, who: nat, q: string, p: Process, r: int, k: int, i: int)
    requires |run| == |steps| + 1 && i <= |steps|
  {
    && 0 <= r < k < i && steps[r] == StopRead(who, q) && Get(run[r].entries, q) == Some(p)
    && steps[k].Teardown? && steps[k].who == who
    && IsIdleFor(steps, who, r + 1, k) && IsIdleFor(steps, who, k + 1, i)
  }

  /** A registered adapter's stop of p returned normally. */
  predicate Stops(s: State, step: Step, p: Process) {
    step.Teardown? && step.ok && p.adapter in s.adapters
  }

  /** Where a caller's stage comes from: the call that began with a read of its entry. */
  ghost predicate HasOrigin(run: seq<State>, steps: seq<Step>, who: nat, i: int)
    requires |run| == |steps| + 1 && 0 <= i <= |steps| && who < |run[i].callers|
  {
    var stage := run[i].callers[who];
    match stage
    case Idle => true
    case Stopping(q, seen) =>
      exists r :: 0 <= r < i && steps[r] == StopRead(who, q) && Get(run[r].entries, q) == Some(seen)
        && IsIdleFor(steps, who, r + 1, i)
    case Removing(q, seen, tornDown) =>
      exists r, k :: IsTeardown(run, steps, who, q, seen, r, k, i) && (tornDown <==> Stops(run[k], steps[k], seen))
        && (tornDown <==> seen.adapter in run[0].adapters)
    case _ => exists r :: BeganAt(steps, who, stage.q, r, i)
  }

  lemma {:induction false} SameCallers(run: seq<State>, steps: seq<Step>, i: nat)
    requires IsRun(run, steps) && i < |run|
    ensures run[i].adapters == run[0].adapters && |run[i].callers| == |run[0].callers|
  {
    if i > 0 {
      SameCallers(run, steps, i - 1);
      assert run[i] == Apply(run[i - 1], steps[i - 1]);
    }
  }

  lemma OriginStays(run: seq<State>, steps: seq<Step>, who: nat, i: nat)
    requires IsRun(run, steps) && i < |steps| && who < |run[i].callers|
    requires HasOrigin(run, steps, who, i) && !IsBy(steps[i], who)
    ensures who < |run[i + 1].callers| && HasOrigin(run, steps, who, i + 1)
  {
    assert run[i + 1] == Apply(run[i], steps[i]);
    match run[i].callers[who]
    case Removing(q, seen, tornDown) =>
      var r, k :| IsTeardown(run, steps, who, q, seen, r, k, i) && (tornDown <==> Stops(run[k], steps[k], seen));
      assert IsTeardown(run, steps, who, q, seen, r, k, i + 1);
    case Idle =>
    case Stopping(q, seen) =>
    case _ =>
      var r :| BeganAt(steps, who, run[i].callers[who].q, r, i);
      assert BeganAt(steps, who, run[i].callers[who].q, r, i + 1);
  }

  lemma OriginMoves(run: seq<State>, steps: seq<Step>, who: nat, i: nat)
    requires IsRun(run, steps) && i < |steps| && who < |run[i].callers|
    requires HasOrigin(run, steps, who, i) && IsBy(steps[i], who)
    ensures who < |run[i + 1].callers| && HasOrigin(run, steps, who, i + 1)
  {
    assert run[i + 1] == Apply(run[i], steps[i]);
    SameCallers(run, steps, i);
    match steps[i]
    case EnsureRead(_, q, _) => assert BeganAt(steps, who, q, i, i + 1);
    case StopRead(_, q) => assert IsIdleFor(steps, who, i + 1, i + 1);
    case Teardown(_, ok) =>
      var q, seen := run[i].callers[who].q, run[i].callers[who].seen;
      var r :| 0 <= r < i && steps[r] == StopRead(who, q) && Get(run[r].entries, q) == Some(seen)
        && IsIdleFor(steps, who, r + 1, i);
      assert IsTeardown(run, steps, who, q, seen, r, i, i + 1);
    case Check(_, _) =>
      var r :| BeganAt(steps, who, run[i].callers[who].q, r, i);
      assert BeganAt(steps, who, run[i].callers[who].q, r, i + 1);
    case Start(_, _) =>
      var r :| BeganAt(steps, who, run[i].callers[who].q, r, i);
      assert BeganAt(steps, who, run[i].callers[who].q, r, i + 1);
    case _ =>
  }

  lemma {:induction false} StagesHaveOrigins(run: seq<State>, steps: seq<Step>, who: nat, i: nat)
    requires IsRun(run, steps) && i < |run| && who < |run[i].callers|
    ensures HasOrigin(run, steps, who, i)
  {
    SameCallers(run, steps, i);
    if i == 0 {
      assert run[0].callers[who] in run[0].callers;
    } else {
      SameCallers(run, steps, i - 1);
      StagesHaveOrigins(run, steps, who, i - 1);
      if IsBy(steps[i - 1], who) {
        OriginMoves(run, steps, who, i - 1);
      } else {
        OriginStays(run, steps, who, i - 1);
      }
    }
  }

  /** A locked update of q by a call for q: the drop of an unhealthy entry, an addition or a removal. */
  ghost predicate IsOwnCommit(run: seq<State>, steps: seq<Step>, q: string, k: int)
    requires |run| == |steps| + 1 && 0 <= k < |steps|
  {
    && ((steps[k].Check? && !steps[k].healthy) || steps[k].Add? || steps[k].Remove?)
    && exists r :: BeganAt(steps, steps[k].who, q, r, k)
  }

  predicate IsDeadPruned(run: seq<State>, steps: seq<Step>, q: string, k: int)
    requires |run| == |steps| + 1 && 0 <= k < |steps|
  {
    && steps[k].Prune? && q in run[k].entries
    && run[k].entries[q].pid.Some? && run[k].entries[q].pid.value !in steps[k].alive
  }

  lemma ChangeHasACause(run: seq<State>, steps: seq<Step>, q: string, k: nat)
    requires IsRun(run, steps) && k < |steps| && Get(run[k + 1].entries, q) != Get(run[k].entries, q)
    ensures IsDeadPruned(run, steps, q, k) || IsOwnCommit(run, steps, q, k)
    ensures q in run[k + 1].entries ==> steps[k].Add?
  {
    assert run[k + 1] == Apply(run[k], steps[k]);
    if !steps[k].Prune? {
      var who := steps[k].who;
      StagesHaveOrigins(run, steps, who, k);
      if run[k].callers[who].Removing? {
        var r, m :| IsTeardown(run, steps, who, q, run[k].callers[who].seen, r, m, k);
        assert BeganAt(steps, who, q, r, k);
      }
    }
  }

  predicate IsUntouched(run: seq<State>, q: string, i: nat, j: nat)
    requires j < |run|
  {
    forall k :: i <= k < j ==> Get(run[k + 1].entries, q) == Get(run[k].entries, q)
  }

  lemma {:induction false} UntouchedStays(run: seq<State>, q: string, i: nat, j: nat)
    requires i <= j < |run| && IsUntouched(run, q, i, j)
    ensures Get(run[j].entries, q) == Get(run[i].entries, q)
  {
    if i < j {
      UntouchedStays(run, q, i, j - 1);
    }
  }

  lemma {:induction false} FirstChange(run: seq<State>, q: string, i: nat, j: nat) returns (k: nat)
    requires i <= j < |run| && Get(run[i].entries, q) != Get(run[j].entries, q)
    ensures i <= k < j && Get(run[k + 1].entries, q) != Get(run[k].entries, q) && IsUntouched(run, q, i, k)
  {
    k := i;
    while Get(run[k + 1].entries, q) == Get(run[k].entries, q)
      invariant i <= k < j && IsUntouched(run, q, i, k) && Get(run[k].entries, q) == Get(run[i].entries, q)
      decreases j - k
    {
      k := k + 1;
    }
  }

  /**
   * In every run, an entry that has changed between two moments was in between dropped by a prune because its
   * recorded process was dead, or committed to by a call that had begun with a read of that very entry.
   */
  lemma OnlyCallsForTheEntryChangeIt(run: seq<State>, steps: seq<Step>, q: string, i: nat, j: nat) returns (k: nat)
    requires IsRun(run, steps) && i <= j <= |steps| && Get(run[i].entries, q) != Get(run[j].entries, q)
    ensures i <= k < j && (IsDeadPruned(run, steps, q, k) || IsOwnCommit(run, steps, q, k))
  {
    k := FirstChange(run, q, i, j);
    ChangeHasACause(run, steps, q, k);
  }

  /** While no call commits to it, an entry without a process id, or one that every prune finds alive, stays as it is. */
  lemma PruneSparesTheRest(run: seq<State>, steps: seq<Step>, q: string, i: nat, j: nat)
    requires IsRun(run, steps) && i <= j <= |steps| && q in run[i].entries
    requires forall k :: i <= k < j ==> !IsOwnCommit(run, steps, q, k)
    requires var pid := run[i].entries[q].pid;
      pid.None? || forall k :: i <= k < j && steps[k].Prune? ==> pid.value in steps[k].alive
    ensures Get(run[j].entries, q) == Get(run[i].entries, q)
  {
    if Get(run[j].entries, q) != Get(run[i].entries, q) {
      var k := FirstChange(run, q, i, j);
      UntouchedStays(run, q, i, k);
      ChangeHasACause(run, steps, q, k);
    }
  }

  /**
   * Every removal ends a stop that read the entry and then tore down once, with no other step of its own. The
   * teardown was a registered adapter's normal return exactly when an adapter is registered for the type read:
   * otherwise the removal is taken for a successful stop although nothing has stopped the process.
   */
  lemma RemovedWithoutTeardownIff(run: seq<State>, steps: seq<Step>, i: nat) returns (r: nat, k: nat)
    requires IsRun(run, steps) && i < |steps| && steps[i].Remove?
    ensures steps[i].who < |run[i].callers| && run[i].callers[steps[i].who].Removing?
    ensures var q := run[i].callers[steps[i].who].q;
      && r < i && q in run[r].entries && IsTeardown(run, steps, steps[i].who, q, run[r].entries[q], r, k, i)
      && (!Stops(run[k], steps[k], run[r].entries[q]) <==> run[r].entries[q].adapter !in run[0].adapters)
      && q !in run[i + 1].entries
  {
    var who := steps[i].who;
    StagesHaveOrigins(run, steps, who, i);
    var stage := run[i].callers[who];
    var r0, k0 :| IsTeardown(run, steps, who, stage.q, stage.seen, r0, k0, i)
      && (stage.tornDown <==> Stops(run[k0], steps[k0], stage.seen));
    r, k := r0, k0;
    assert run[i + 1] == Apply(run[i], steps[i]);
  }

  /** A removal without teardown: the adapter type is not registered, so nothing stops the process. */
  lemma StopWithoutAnAdapter(q: string, p: Process) returns (run: seq<State>, steps: seq<Step>)
    ensures IsRun(run, steps) && steps == [StopRead(0, q), Teardown(0, false), Remove(0)]
    ensures Get(run[0].entries, q) == Some(p) && q !in run[3].entries
    ensures run[2].callers == [Removing(q, p, false)]
  {
    steps := [StopRead(0, q), Teardown(0, false), Remove(0)];
    var s := State(map[q := p], {}, [Idle]);
    run := [s, s.(callers := [Stopping(q, p)]), s.(callers := [Removing(q, p, false)]), State(map[], {}, [Idle])];
    assert run[1] == Apply(run[0], steps[0]) && run[2] == Apply(run[1], steps[1]) && run[3] == Apply(run[2], steps[2]);
  }

  /** Between its read at i and step j, a caller at most tears its process down. */
  predicate InOneStop(steps: seq<Step>, who: nat, i: nat, j: nat)
    requires j <= |steps|
  {
    forall k :: i < k < j && IsBy(steps[k], who) ==> steps[k].Teardown?
  }

  predicate HasSeen(stage: Stage, q: string, p: Process) {
    stage == Stopping(q, p) || (stage.Removing? && stage.q == q && stage.seen == p)
  }

  lemma {:induction false} StopRemembers(run: seq<State>, steps: seq<Step>, who: nat, q: string, i: nat, j: nat)
    requires IsRun(run, steps) && i < j <= |steps| && steps[i] == StopRead(who, q) && q in run[i].entries
    requires InOneStop(steps, who, i, j)
    ensures who < |run[j].callers|
    ensures run[j].callers[who] == Idle || HasSeen(run[j].callers[who], q, run[i].entries[q])
  {
    if i + 1 < j {
      StopRemembers(run, steps, who, q, i, j - 1);
      assert run[j] == Apply(run[j - 1], steps[j - 1]);
      assert IsBy(steps[j - 1], who) ==> steps[j - 1].Teardown?;
    }
  }

  /** Where nobody commits a change to the entry in between, a stop removes exactly the process it read. */
  lemma StopRemovesWhatItRead(run: seq<State>, steps: seq<Step>, who: nat, q: string, i: nat, j: nat)
    requires IsRun(run, steps) && i < j < |steps|
    requires steps[i] == StopRead(who, q) && q in run[i].entries && steps[j] == Remove(who)
    requires InOneStop(steps, who, i, j) && IsUntouched(run, q, i, j)
    ensures Get(run[j].entries, q) == Some(run[i].entries[q])
    ensures run[j].callers[who].q == q && q !in run[j + 1].entries
  {
    StopRemembers(run, steps, who, q, i, j);
    UntouchedStays(run, q, i, j);
    assert run[j + 1] == Apply(run[j], steps[j]);
  }

  /** A stop whose entry was replaced meanwhile removes the replacement, which nobody has stopped. */
  lemma StopRemovesAReplacement(q: string, first: Process, second: Process)
    returns (run: seq<State>, steps: seq<Step>)
    requires first != second
    ensures IsRun(run, steps) && |steps| == 7
    ensures steps[0] == StopRead(0, q) && Get(run[0].entries, q) == Some(first)
    ensures InOneStop(steps, 0, 0, 6) && steps[5] == Teardown(0, true)
    ensures steps[6] == Remove(0) && Get(run[6].entries, q) == Some(second) && q !in run[7].entries
    ensures |run[0].callers| == 2 && run[6].callers[0] == Removing(q, first, true)
  {
    run := [
      RaceState(q, [first], first, Idle, Idle),
      RaceState(q, [first], first, Stopping(q, first), Idle),
      RaceState(q, [first], first, Stopping(q, first), Checking(q, first.adapter, first)),
      RaceState(q, [], first, Stopping(q, first), Starting(q, first.adapter)),
      RaceState(q, [], first, Stopping(q, first), Adding(q, second)),
      RaceState(q, [second], first, Stopping(q, first), Idle),
      RaceState(q, [second], first, Removing(q, first, true), Idle),
      RaceState(q, [], first, Idle, Idle)];
    steps := [
      StopRead(0, q), EnsureRead(1, q, first.adapter), Check(1, false), Start(1, Some(second)), Add(1),
      Teardown(0, true), Remove(0)];
    RaceBegins(q, first, second);
    RaceEnds(q, first, second);
  }

  /** Two callers and at most one entry. */
  function RaceState(q: string, held: seq<Process>, first: Process, a: Stage, b: Stage): State
    requires |held| <= 1
  {
    State(if held == [] then map[] else map[q := held[0]], {first.adapter}, [a, b])
  }

  lemma RaceBegins(q: string, first: Process, second: Process)
    ensures var s := RaceState(q, [first], first, Idle, Idle);
      Enabled(s, StopRead(0, q)) && Apply(s, StopRead(0, q)) == RaceState(q, [first], first, Stopping(q, first), Idle)
    ensures var s := RaceState(q, [first], first, Stopping(q, first), Idle);
      && Enabled(s, EnsureRead(1, q, first.adapter))
      && Apply(s, EnsureRead(1, q, first.adapter))
        == RaceState(q, [first], first, Stopping(q, first), Checking(q, first.adapter, first))
    ensures var s := RaceState(q, [first], first, Stopping(q, first), Checking(q, first.adapter, first));
      && Enabled(s, Check(1, false))
      && Apply(s, Check(1, false)) == RaceState(q, [], first, Stopping(q, first), Starting(q, first.adapter))
  {}

  lemma RaceEnds(q: string, first: Process, second: Process)
    ensures var s := RaceState(q, [], first, Stopping(q, first), Starting(q, first.adapter));
      && Enabled(s, Start(1, Some(second)))
      && Apply(s, Start(1, Some(second))) == RaceState(q, [], first, Stopping(q, first), Adding(q, second))
    ensures var s := RaceState(q, [], first, Stopping(q, first), Adding(q, second));
      Enabled(s, Add(1)) && Apply(s, Add(1)) == RaceState(q, [second], first, Stopping(q, first), Idle)
    ensures var s := RaceState(q, [second], first, Stopping(q, first), Idle);
      && Enabled(s, Teardown(0, true))
      && Apply(s, Teardown(0, true)) == RaceState(q, [second], first, Removing(q, first, true), Idle)
    ensures var s := RaceState(q, [second], first, Removing(q, first, true), Idle);
      Enabled(s, Remove(0)) && Apply(s, Remove(0)) == RaceState(q, [], first, Idle, Idle)
  {}

  /** The entry that a stop is after is gone or as the stop read it. */
  predicate IsUndisturbed(s: State, stage: Stage) {
    (stage.Stopping? || stage.Removing?) && stage.q in s.entries ==> s.entries[stage.q] == stage.seen
  }

  /** Every removal of the run that finds an entry finds the process that its stop read. */
  ghost predicate RemovesWhatItRead(run: seq<State>, steps: seq<Step>)
    requires |run| == |steps| + 1
  {
    forall j | 0 <= j < |steps| && steps[j].Remove? && steps[j].who < |run[j].callers| ::
      IsUndisturbed(run[j], run[j].callers[steps[j].who])
  }

  lemma {:induction false} LoneCallerIsUndisturbed(run: seq<State>, steps: seq<Step>, i: nat)
    requires IsRun(run, steps) && i < |run| && |run[0].callers| == 1
    ensures |run[i].callers| == 1 && IsUndisturbed(run[i], run[i].callers[0])
  {
    if i == 0 {
      assert run[0].callers[0] in run[0].callers;
    } else {
      LoneCallerIsUndisturbed(run, steps, i - 1);
      assert run[i] == Apply(run[i - 1], steps[i - 1]);
    }
  }

  lemma LoneStopsAreUndisturbed(run: seq<State>, steps: seq<Step>)
    requires IsRun(run, steps) && |run[0].callers| <= 1
    ensures RemovesWhatItRead(run, steps)
  {
    forall j: nat | j < |steps| && steps[j].Remove? && steps[j].who < |run[j].callers|
      ensures IsUndisturbed(run[j], run[j].callers[steps[j].who])
    {
      SameCallers(run, steps, j);
      LoneCallerIsUndisturbed(run, steps, j);
    }
  }

  function Widened(s: State, idle: nat): State {
    s.(callers := s.callers + seq(idle, _ => Idle))
  }

  lemma WidenedApply(s: State, step: Step, idle: nat)
    requires Enabled(s, step)
    ensures Enabled(Widened(s, idle), step) && Apply(Widened(s, idle), step) == Widened(Apply(s, step), idle)
  {
    if !step.Prune? {
      var others, stage := seq(idle, _ => Idle), Next(s, step);
      assert (s.callers + others)[step.who] == s.callers[step.who];
      assert (s.callers + others)[step.who := stage] == s.callers[step.who := stage] + others;
    }
  }

  /** The same run beside callers that stay idle. */
  function WidenedRun(run: seq<State>, idle: nat): seq<State> {
    seq(|run|, i requires 0 <= i < |run| => Widened(run[i], idle))
  }

  lemma WidenedIsRun(run: seq<State>, steps: seq<Step>, idle: nat)
    requires IsRun(run, steps)
    ensures IsRun(WidenedRun(run, idle), steps)
  {
    var wide := WidenedRun(run, idle);
    forall i | 0 <= i < |steps| ensures Enabled(wide[i], steps[i]) && wide[i + 1] == Apply(wide[i], steps[i]) {
      WidenedApply(run[i], steps[i], idle);
    }
  }

  /**
   * Stops remove only what they have read, and so only what they may have torn down, in every run of a deployment
   * exactly if it has no second caller.
   */
  lemma RemovesWhatItReadIff(callers: nat)
    ensures (forall run: seq<State>, steps | IsRun(run, steps) && |run[0].callers| == callers :: RemovesWhatItRead(run, steps))
       <==> callers <= 1
  {
    if callers <= 1 {
      forall run: seq<State>, steps | IsRun(run, steps) && |run[0].callers| == callers
        ensures RemovesWhatItRead(run, steps)
      {
        LoneStopsAreUndisturbed(run, steps);
      }
    } else {
      var first, second := Process("a", 1, None, ""), Process("a", 2, None, "");
      var run, steps := StopRemovesAReplacement("q", first, second);
      var wide := WidenedRun(run, callers - 2);
      WidenedIsRun(run, steps, callers - 2);
      assert wide[6].callers[0] == Removing("q", first, true) && wide[6].entries["q"] == second;
      assert !RemovesWhatItRead(wide, steps);
    }
  }

  /** The registry file under its lock. */
  class RegistryStore {
    var processes: Registry

    /** prune_dead_pids: it drops exactly the entries whose recorded process is dead, and reports each once. */
    method PruneDeadPids(alive: set<int>) returns (stale: seq<string>)
      modifies this
      ensures processes == Pruned(old(processes), alive)
      ensures forall q :: q in processes <==>
        q in old(processes) && (old(processes)[q].pid.None? || old(processes)[q].pid.value in alive)
      ensures forall q <- processes :: processes[q] == old(processes)[q]
      ensures forall q :: q in stale <==> q in old(processes) && q !in processes
      ensures forall i, j :: 0 <= i < j < |stale| ==> stale[i] != stale[j]
    {
      stale := [];
      var entries := processes;
      var todo := processes.Keys;
      while todo != {}
        invariant todo <= entries.Keys <= processes.Keys
        invariant forall q <- entries :: entries[q] == processes[q]
        invariant forall q <- processes :: q !in todo ==> (q in entries <==> q in Pruned(processes, alive))
        invariant forall q :: q in stale <==> q in processes && q !in entries
        invariant forall i, j :: 0 <= i < j < |stale| ==> stale[i] != stale[j]
        decreases todo
      {
        var q :| q in todo;
        todo := todo - {q};
        var pid := entries[q].pid;
        if pid.Some? && pid.value !in alive {
          entries := entries - {q};
          stale := stale + [q];
        }
      }
      assert entries == Pruned(processes, alive);
      if stale != [] {
        processes := entries;
      } else {
        assert entries == processes;
      }
    }

    /**
     * ensure_backend for an undisturbed caller: a healthy entry is reused and the registry stays as it is; else
     * the entry is dropped, and what was started takes its place.
     */
    method EnsureBackend(adapters: set<string>, q: string, adapter: string, healthy: Process -> bool,
        configured: bool, outcome: Option<Process>) returns (r: Option<Process>)
      modifies this
      ensures adapter !in adapters ==> r == None && processes == old(processes)
      ensures adapter in adapters && q in old(processes) && healthy(old(processes)[q]) ==>
        r == Some(old(processes)[q]) && processes == old(processes)
      ensures adapter in adapters && !(q in old(processes) && healthy(old(processes)[q])) ==>
        && r == (if configured then outcome else None)
        && processes == if r.Some? then old(processes)[q := r.value] else old(processes) - {q}
    {
      if adapter !in adapters { return None; }
      if q in processes {
        if healthy(processes[q]) { return Some(processes[q]); }
        processes := processes - {q};
      }
      assert processes == old(processes) - {q};
      if !configured { return None; }
      if outcome.None? { return None; }
      processes := processes[q := outcome.value];
      r := outcome;
    }

    /** stop_backend for an undisturbed caller: only a failing adapter keeps the entry. */
    method StopBackend(adapters: set<string>, q: string, stops: Process -> bool) returns (ok: bool)
      modifies this
      ensures ok <==> q in old(processes) && (old(processes)[q].adapter in adapters ==> stops(old(processes)[q]))
      ensures processes == if ok then old(processes) - {q} else old(processes)
    {
      if q !in processes { return false; }
      var process := processes[q];
      if process.adapter in adapters && !stops(process) { return false; }
      processes := processes - {q};
      ok := true;
    }
  }
}
