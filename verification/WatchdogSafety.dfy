/** Whom the watchdog's group signals reach, in which order they are sent, and when the anchor is reaped. */
module WatchdogSafety {
  import opened ProcessTable
  import opened Values
  import opened Watchdog

  // ----- The table under every step -----

  ghost predicate Founded(s: State) {
    WellFormed(s.table) && (Born(s) ==> Leads(s.table, s.a.pid, s.a.born))
  }

  ghost predicate NoLoyal(s: State) {
    Loyal(s.table, s.a.born) == {}
  }

  ghost predicate NoCompanion(s: State) {
    Alone(s.table, s.a.born)
  }

  lemma EffectKeeps(t: Table, effect: Effect, a: Pid, b: nat)
    requires WellFormed(t) && MayPerform(t, effect) && Leads(t, a, b)
    ensures var u := Perform(t, effect);
            && WellFormed(u) && Leads(u, a, b)
            && (Bears(u, a, b) <==> Bears(t, a, b) && effect != Calls(CReap(a)))
            && (Runs(u, a, b) <==>
                  Runs(t, a, b) && effect != Calls(CExit(a)) && !(effect.Kills? && a in effect.victims))
            && (Alone(t, b) && !(effect.Calls? && effect.e.CFork? && t.procs[effect.e.parent].born == b) ==> Alone(u, b))
            && (Loyal(t, b) == {} ==> Loyal(u, b) == {})
            && (Bears(t, a, b) && effect == Kills(Recipients(t, a)) ==> Loyal(u, b) == {})
  {
    match effect
    case Nothing =>
    case Spawns(pid) => SpawnKeepsOthers(t, pid, a, b);
    case Kills(victims) =>
      KillKeeps(t, victims, a, b);
      if Bears(t, a, b) { RecipientsAreFollowers(t, a, b); }
    case Calls(e) => CallKeeps(t, e, a, b);
  }

  predicate Creates(step: Step) {
    step.Watched? && step.w.SpawnAnchor?
  }

  predicate Launches(step: Step) {
    step.Anchored? && step.a.Launch?
  }

  lemma StepPerforms(c: Config, s: State, step: Step)
    requires Enabled(c, s, step)
    ensures Apply(c, s, step).table == Perform(s.table, EffectOf(s, step))
    ensures !Creates(step) ==>
              var t := Apply(c, s, step);
              t.a.pid == s.a.pid && t.a.born == s.a.born && (Born(s) ==> Born(t))
    ensures EffectOf(s, step).Spawns? <==> Creates(step)
    ensures EffectOf(s, step) == Calls(CExit(s.a.pid)) ==> !Held(s)
    ensures step == Watched(KillGroup) || step == Anchored(Expire) ==> EffectOf(s, step) == Kills(Group(s))
    ensures EffectOf(s, step).Calls? && EffectOf(s, step).e.CFork? && EffectOf(s, step).e.parent == s.a.pid ==>
              Launches(step) || !Held(s)
  {}

  lemma EffectOnAnchor(s: State, t: State, effect: Effect)
    requires Founded(s) && Born(s) && Born(t) && t.a.pid == s.a.pid && t.a.born == s.a.born
    requires MayPerform(s.table, effect) && t.table == Perform(s.table, effect)
    ensures Founded(t)
    ensures Held(t) <==> Held(s) && effect != Calls(CReap(s.a.pid))
    ensures Up(t) <==> Up(s) && effect != Calls(CExit(s.a.pid)) && !(effect.Kills? && s.a.pid in effect.victims)
    ensures NoCompanion(s) && !(effect.Calls? && effect.e.CFork? && effect.e.parent == s.a.pid && Held(s)) ==> NoCompanion(t)
    ensures NoLoyal(s) || (Held(s) && effect == Kills(Group(s))) ==> NoLoyal(t)
  {
    EffectKeeps(s.table, effect, s.a.pid, s.a.born);
  }

  /** What a step that does not create the anchor does to it. */
  lemma StepEffect(c: Config, s: State, step: Step)
    requires Founded(s) && Born(s) && Enabled(c, s, step) && !Creates(step)
    ensures var t := Apply(c, s, step);
            && Founded(t) && Born(t) && t.a.pid == s.a.pid && t.a.born == s.a.born
            && (Held(t) <==> Held(s) && !ReapsAnchor(s, step))
            && (Up(t) <==> Up(s) && !Falls(s, step))
            && (NoCompanion(s) && !Launches(step) ==> NoCompanion(t))
            && (NoLoyal(s) || (Held(s) && (step == Watched(KillGroup) || step == Anchored(Expire))) ==> NoLoyal(t))
  {
    StepPerforms(c, s, step);
    EffectOnAnchor(s, Apply(c, s, step), EffectOf(s, step));
  }

  // ----- The watcher holds on to the anchor -----

  predicate Cleaning(p: Phase) {
    p == Interrupting || p == Terminating || p == Killing || p == Reaping
  }

  predicate Holding(p: Phase) {
    p == Delivering || p == LoopTop || p == Selecting || Cleaning(p)
  }

  predicate Phases(s: State) {
    && (s.w.phase == Boot || s.w.phase == Spawning ==> !Born(s))
    && (Holding(s.w.phase) ==> Held(s))
    && (s.w.phase == Reaping ==> !Up(s))
    && (s.w.phase == Exited && Born(s) ==> !Held(s))
    && (!Born(s) ==> s.log == [] && s.pipes.statusAt == None && s.pipes.delivered == None)
  }

  ghost predicate Sound(s: State) {
    Founded(s) && Phases(s)
  }

  lemma PhasesStep(c: Config, s: State, step: Step, t: State)
    requires Phases(s) && Enabled(c, s, step) && !Creates(step) && Born(s) && Born(t)
    requires t.w == WatcherAfter(c, s, step)
    requires (Held(t) <==> Held(s) && !ReapsAnchor(s, step)) && (Up(t) <==> Up(s) && !Falls(s, step))
    requires Up(s) ==> s.a.pid in Group(s)
    ensures Phases(t)
  {}

  lemma UnbornStep(c: Config, s: State, step: Step)
    requires Sound(s) && !Born(s) && Enabled(c, s, step) && !Creates(step)
    ensures Sound(Apply(c, s, step))
  {
    StepPerforms(c, s, step);
    if step.Elsewhere? { CallKeepsTable(s.table, step.e); }
  }

  lemma SoundStep(c: Config, s: State, step: Step)
    requires Sound(s) && Enabled(c, s, step)
    ensures Sound(Apply(c, s, step))
  {
    if Creates(step) {
      SpawnKeeps(s.table, step.w.pid);
    } else if Born(s) {
      StepEffect(c, s, step);
      if Held(s) { RecipientsAreFollowers(s.table, s.a.pid, s.a.born); }
      PhasesStep(c, s, step, Apply(c, s, step));
    } else {
      UnbornStep(c, s, step);
    }
  }

  // ----- Whom the signals reach -----

  predicate OwnGroup(a: Anchor, x: Proc) {
    x.group == a.pid && x.founder == a.born && x.session == a.born
  }

  predicate OnTarget(s: State) {
    forall act <- s.log | act.Signalled? :: forall x <- act.hit :: OwnGroup(s.a, x)
  }

  lemma OnTargetStep(c: Config, s: State, step: Step, t: State)
    requires Sound(s) && OnTarget(s) && Enabled(c, s, step)
    requires t.log == LogAfter(s, step) && (Born(s) ==> t.a.pid == s.a.pid && t.a.born == s.a.born)
    ensures OnTarget(t)
  {
    if Held(s) { RecipientsAreFollowers(s.table, s.a.pid, s.a.born); }
  }

  // ----- In which order -----

  datatype Move = Sends(sig: Signal) | Reaps

  /** The finally block: courtesy signals unless the reviewer has finished, then KILL, then the reaping. */
  function Plan(completed: bool): seq<Move> {
    if completed then [Sends(KILL), Reaps] else [Sends(INT), Sends(TERM), Sends(KILL), Reaps]
  }

  function WatcherMoves(log: seq<Act>): seq<Move> {
    if log == [] then []
    else
      var rest, act := WatcherMoves(log[..|log| - 1]), log[|log| - 1];
      if act.party != ByWatcher then rest else rest + [if act.Signalled? then Sends(act.sig) else Reaps]
  }

  /** How much of its plan a watcher that has not crashed has carried out. */
  function MovesMade(w: Watcher): nat {
    match w.phase
    case Terminating => 1
    case Killing => if w.completed then 0 else 2
    case Reaping => |Plan(w.completed)| - 1
    case Exited => |Plan(w.completed)|
    case _ => 0
  }

  predicate InOrder(s: State) {
    && (s.w.completed ==> s.w.phase == Killing || s.w.phase == Reaping || s.w.phase == Exited || s.w.phase == Crashed)
    && WatcherMoves(s.log) <= Plan(s.w.completed)
    && (s.w.phase != Crashed && Born(s) ==> WatcherMoves(s.log) == Plan(s.w.completed)[..MovesMade(s.w)])
  }

  predicate ReapsLast(s: State) {
    && (forall i | 0 <= i < |s.log| - 1 :: !s.log[i].Reaped?)
    && (s.log != [] && s.log[|s.log| - 1].Reaped? ==> !Held(s))
  }

  function MovesOf(step: Step): seq<Move> {
    match step
    case Watched(Interrupt(_)) => [Sends(INT)]
    case Watched(Terminate(_)) => [Sends(TERM)]
    case Watched(KillGroup) => [Sends(KILL)]
    case Watched(Wait) => [Reaps]
    case _ => []
  }

  lemma MovesGrow(s: State, step: Step)
    ensures WatcherMoves(LogAfter(s, step)) == WatcherMoves(s.log) + MovesOf(step)
  {
    if ActOf(s, step).Some? {
      assert LogAfter(s, step)[..|s.log|] == s.log;
    }
  }

  lemma InOrderStep(c: Config, s: State, step: Step, t: State)
    requires Phases(s) && InOrder(s) && Enabled(c, s, step)
    requires t.w == WatcherAfter(c, s, step) && t.log == LogAfter(s, step) && (Born(t) <==> Born(s) || Creates(step))
    ensures InOrder(t)
  {
    MovesGrow(s, step);
    if step.Watched? {
      WatcherKeepsOrder(c, s, step.w, t);
    }
  }

  lemma WatcherKeepsOrder(c: Config, s: State, w: WatcherStep, t: State)
    requires Phases(s) && InOrder(s) && Enabled(c, s, Watched(w))
    requires t.w == WatcherAfter(c, s, Watched(w)) && (Born(t) <==> Born(s) || Creates(Watched(w)))
    requires WatcherMoves(t.log) == WatcherMoves(s.log) + MovesOf(Watched(w))
    ensures InOrder(t)
  {
    if w != Crash && Born(s) { PlanAdvances(c, s, w); }
  }

  lemma PlanAdvances(c: Config, s: State, w: WatcherStep)
    requires InOrder(s) && WatcherEnabled(c, s, w) && w != Crash && s.w.phase != Boot && s.w.phase != Spawning
    ensures var v := WatcherDoes(c, s, w);
            Plan(s.w.completed)[..MovesMade(s.w)] + MovesOf(Watched(w)) == Plan(v.completed)[..MovesMade(v)]
  {}

  lemma ReapsLastStep(c: Config, s: State, step: Step, t: State)
    requires Phases(s) && ReapsLast(s) && Enabled(c, s, step)
    requires t.log == LogAfter(s, step)
    requires Born(s) ==> (Held(t) <==> Held(s) && !ReapsAnchor(s, step))
    ensures ReapsLast(t)
  {
    assert ActOf(s, step).Some? ==> Held(s);
  }
}
