/**
  The parent-death watchdog as a protocol between owner, watcher, anchor and reviewer.

  Time is in milliseconds and advances by Tick. A party whose next action has become
  possible takes it at most slack milliseconds later: Tick waits for it. Everything else
  (crashes, process exits, forks and regroupings of any process) may happen at any time.
*/
module Watchdog {
  import opened ProcessTable
  import opened Values

  const TERMINATION_GRACE: int := 500
  const INTERRUPTION_GRACE: int := 1000
  const HARD_KILL_DELAY: int := 2 * TERMINATION_GRACE + INTERRUPTION_GRACE
  const OWNER_PATIENCE: int := 2 * TERMINATION_GRACE + INTERRUPTION_GRACE + 2000
  const TIMEOUT_EXIT: int := 124
  const LOST_ANCHOR_EXIT: int := 125
  const LAUNCH_FAILED_EXIT: int := 127

  datatype Config = Config(deadline: int, slack: nat)

  datatype Owner = Guarding | Closing(since: int) | Released | Vanished

  datatype Phase =
    | Boot | Spawning | Delivering | LoopTop | Selecting
    | Interrupting | Terminating | Killing | Reaping
    | Exited | Crashed

  /** entered is when the phase may act, Selecting apart; code is the return value. */
  datatype Watcher = Watcher(phase: Phase, entered: int, completed: bool, code: int)

  datatype Stage = Unborn | Booting | Armed | Running(reviewer: Pid, birth: nat) | Reported

  /** lost: it died otherwise than by a signal to its group. */
  datatype Anchor = Anchor(stage: Stage, pid: Pid, born: nat, lost: bool, armedAt: int)

  /**
    sent: the payload is in the watcher's standard input. closed: when the owner's end of
    the control pipe was closed. delivered: when the payload reached the anchor's standard
    input. status: what the anchor wrote; statusAt: when the status pipe became readable,
    by data or by end of file.
  */
  datatype Pipes = Pipes(
    sent: bool, closed: Option<int>, delivered: Option<int>, status: Option<int>, statusAt: Option<int>)

  datatype Signal = INT | TERM | KILL

  datatype Party = ByWatcher | ByAnchor | ByInit

  datatype Act =
    | Signalled(party: Party, sig: Signal, at: int, hit: set<Proc>)
    | Reaped(party: Party, at: int)

  datatype State = State(
    now: int, table: Table, owner: Owner, w: Watcher, a: Anchor, pipes: Pipes, log: seq<Act>)

  function Max(a: int, b: int): int { if a < b then b else a }

  ghost predicate Init(s: State) {
    && WellFormed(s.table)
    && s.owner == Guarding
    && s.w.phase == Boot && !s.w.completed
    && s.a.stage == Unborn && !s.a.lost
    && s.pipes == Pipes(false, None, None, None, None)
    && s.log == []
  }

  // ----- The anchor -----

  predicate Born(s: State) {
    s.a.stage != Unborn
  }

  predicate HasArmed(s: State) {
    s.a.stage != Unborn && s.a.stage != Booting
  }

  /** It has not been reaped. */
  predicate Held(s: State) {
    Born(s) && Bears(s.table, s.a.pid, s.a.born)
  }

  predicate Up(s: State) {
    Born(s) && Runs(s.table, s.a.pid, s.a.born)
  }

  function TimerAt(c: Config, s: State): int {
    s.a.armedAt + Max(0, c.deadline - s.a.armedAt) + HARD_KILL_DELAY
  }

  predicate ReviewerGone(s: State) {
    s.a.stage.Running? && !Runs(s.table, s.a.stage.reviewer, s.a.stage.birth)
  }

  function Group(s: State): set<Pid> {
    Recipients(s.table, s.a.pid)
  }

  /** INT and TERM may be survived; the anchor survives both once its handlers are installed. */
  predicate MayFall(s: State, victims: set<Pid>) {
    victims <= Group(s) && (s.a.pid in victims && Held(s) ==> s.a.stage == Booting)
  }

  // ----- Time -----

  function Earlier(a: Option<int>, b: int): int {
    if a.Some? && a.value < b then a.value else b
  }

  /** When select first had something to report: a readable pipe or the deadline. */
  function WakeAt(c: Config, s: State): int {
    Max(s.w.entered, Earlier(s.pipes.closed, Earlier(s.pipes.statusAt, c.deadline)))
  }

  predicate Timed(p: Phase) {
    p != Boot && p != Exited && p != Crashed
  }

  function Due(c: Config, s: State): int {
    (if s.w.phase == Selecting then WakeAt(c, s) else s.w.entered) + c.slack
  }

  predicate MayWait(c: Config, s: State) {
    && (Timed(s.w.phase) ==> s.now < Due(c, s))
    && (Up(s) && HasArmed(s) ==> s.now < TimerAt(c, s) + c.slack)
  }

  // ----- Steps -----

  /** Close stands for every way out of the owner's try block. */
  datatype OwnerStep = Send | Close | Vanish | Escalate | SeeExit

  datatype WatcherStep =
    | Read | SpawnAnchor(pid: Pid) | SpawnFails | Deliver | EnterLoop | Wake | TimeOut
    | Interrupt(victims: set<Pid>) | Terminate(victims: set<Pid>) | KillGroup | Wait | Crash

  datatype AnchorStep =
    | ReadPayload | Launch(child: Pid) | LaunchFails | Report(returncode: int) | Expire | Die

  datatype Step = Tick | Owned(o: OwnerStep) | Watched(w: WatcherStep) | Anchored(a: AnchorStep) | Elsewhere(e: Call)

  predicate OwnerEnabled(s: State, o: OwnerStep) {
    match o
    case Send => s.owner == Guarding && !s.pipes.sent
    case Close => s.owner == Guarding
    case Vanish => s.owner == Guarding || s.owner.Closing?
    case Escalate =>
      s.owner.Closing? && s.owner.since + OWNER_PATIENCE <= s.now && s.w.phase != Exited && s.w.phase != Crashed
    case SeeExit => s.owner.Closing? && (s.w.phase == Exited || s.w.phase == Crashed)
  }

  predicate WatcherEnabled(c: Config, s: State, w: WatcherStep) {
    match w
    case Read => s.w.phase == Boot && (s.pipes.sent || s.owner == Vanished)
    case SpawnAnchor(pid) => s.w.phase == Spawning && Free(s.table, pid)
    case SpawnFails => s.w.phase == Spawning
    case Deliver => s.w.phase == Delivering
    case EnterLoop => s.w.phase == LoopTop
    case Wake => s.w.phase == Selecting && (s.pipes.closed.Some? || s.pipes.statusAt.Some?)
    case TimeOut => s.w.phase == Selecting && c.deadline <= s.now
    case Interrupt(victims) => s.w.phase == Interrupting && MayFall(s, victims)
    case Terminate(victims) => s.w.phase == Terminating && s.w.entered <= s.now && MayFall(s, victims)
    case KillGroup => s.w.phase == Killing && s.w.entered <= s.now
    case Wait => s.w.phase == Reaping && Held(s) && !Up(s)
    case Crash => s.w.phase != Exited && s.w.phase != Crashed
  }

  predicate AnchorEnabled(c: Config, s: State, a: AnchorStep) {
    && Up(s)
    && match a
       case ReadPayload => s.a.stage == Booting && (s.pipes.delivered.Some? || s.w.phase == Crashed)
       case Launch(child) => s.a.stage == Armed && Free(s.table, child)
       case LaunchFails => s.a.stage == Armed
       case Report(_) => ReviewerGone(s)
       case Expire => HasArmed(s) && TimerAt(c, s) <= s.now
       case Die => true
  }

  /** The anchor's own forks and death are its steps; init reaps it only once the watcher is gone. */
  predicate OtherEnabled(s: State, e: Call) {
    && Possible(s.table, e)
    && (e.CFork? && Held(s) ==> e.parent != s.a.pid)
    && (e.CExit? && Held(s) ==> e.p != s.a.pid)
    && (e.CReap? && Held(s) && e.p == s.a.pid ==> s.w.phase == Crashed)
  }

  predicate Enabled(c: Config, s: State, step: Step) {
    match step
    case Tick => MayWait(c, s)
    case Owned(o) => OwnerEnabled(s, o)
    case Watched(w) => WatcherEnabled(c, s, w)
    case Anchored(a) => AnchorEnabled(c, s, a)
    case Elsewhere(e) => OtherEnabled(s, e)
  }

  /**
    A crashed watcher's end of the status pipe is closed. The anchor's write then fails, the
    handler of that failure writes again, and the second failure ends the anchor, its timer
    with it. Before that, end of file instead of a payload is a decoding error that ends it.
  */
  predicate LosesAnchor(s: State, a: AnchorStep) {
    || a == Die
    || (s.w.phase == Crashed && (a.LaunchFails? || a.Report?))
    || (a == ReadPayload && s.pipes.delivered == None)
  }

  /** What a step does to the process table. */
  datatype Effect = Nothing | Spawns(pid: Pid) | Kills(victims: set<Pid>) | Calls(e: Call)

  function EffectOf(s: State, step: Step): Effect {
    match step
    case Tick => Nothing
    case Owned(_) => Nothing
    case Watched(w) =>
      (match w
       case SpawnAnchor(pid) => Spawns(pid)
       case Interrupt(victims) => Kills(victims)
       case Terminate(victims) => Kills(victims)
       case KillGroup => Kills(Group(s))
       case Wait => Calls(CReap(s.a.pid))
       case _ => Nothing)
    case Anchored(a) =>
      if LosesAnchor(s, a) then Kills({s.a.pid})
      else if a == Expire then Kills(Group(s))
      else if a.Launch? then Calls(CFork(s.a.pid, a.child))
      else Nothing
    case Elsewhere(e) => Calls(e)
  }

  predicate MayPerform(t: Table, effect: Effect) {
    match effect
    case Spawns(pid) => Free(t, pid)
    case Calls(e) => Possible(t, e)
    case _ => true
  }

  function Perform(t: Table, effect: Effect): Table
    requires MayPerform(t, effect)
  {
    match effect
    case Nothing => t
    case Spawns(pid) => Spawn(t, pid)
    case Kills(victims) => Kill(t, victims)
    case Calls(e) => After(t, e)
  }

  predicate ReapsAnchor(s: State, step: Step) {
    Held(s) && EffectOf(s, step) == Calls(CReap(s.a.pid))
  }

  predicate Falls(s: State, step: Step) {
    EffectOf(s, step).Kills? && s.a.pid in EffectOf(s, step).victims
  }

  function OwnerAfter(s: State, step: Step): Owner {
    if !step.Owned? || step.o == Send then s.owner
    else match step.o case Close => Closing(s.now) case Vanish => Vanished case _ => Released
  }

  function Entering(s: State, phase: Phase): Watcher {
    s.w.(phase := phase, entered := s.now)
  }

  function WatcherDoes(c: Config, s: State, w: WatcherStep): Watcher {
    match w
    case Crash => s.w.(phase := Crashed)
    case Read =>
      if !s.pipes.sent then Entering(s, Exited).(code := 1)
      else if c.deadline <= s.now || s.pipes.closed.Some? then Entering(s, Exited).(code := TIMEOUT_EXIT)
      else Entering(s, Spawning)
    case SpawnAnchor(_) => Entering(s, Delivering)
    case SpawnFails => Entering(s, Exited).(code := 1)
    // writing to a dead anchor raises, and the finally block cleans up
    case Deliver => if Up(s) then Entering(s, LoopTop) else Entering(s, Interrupting).(code := 1)
    case EnterLoop =>
      if c.deadline <= s.now then Entering(s, Interrupting).(code := TIMEOUT_EXIT) else Entering(s, Selecting)
    case Wake =>
      if s.pipes.closed.Some? then Entering(s, Interrupting).(code := TIMEOUT_EXIT)
      else if s.pipes.status.Some? then Entering(s, Killing).(code := s.pipes.status.value, completed := true)
      else Entering(s, Interrupting).(code := LOST_ANCHOR_EXIT)
    case TimeOut => Entering(s, Interrupting).(code := TIMEOUT_EXIT)
    case Interrupt(_) => s.w.(phase := Terminating, entered := s.now + INTERRUPTION_GRACE)
    case Terminate(_) => s.w.(phase := Killing, entered := s.now + TERMINATION_GRACE)
    case KillGroup => Entering(s, Reaping)
    case Wait => Entering(s, Exited)
  }

  function WatcherAfter(c: Config, s: State, step: Step): Watcher {
    if step.Watched? then WatcherDoes(c, s, step.w)
    else if step == Owned(Escalate) then s.w.(phase := Crashed)
    else s.w
  }

  function AnchorAfter(s: State, step: Step): Anchor {
    match step
    case Watched(SpawnAnchor(pid)) => Anchor(Booting, pid, s.table.births, false, s.now)
    case Anchored(a) =>
      if a == ReadPayload && !LosesAnchor(s, a) then s.a.(stage := Armed, armedAt := s.now)
      else
        s.a.(lost := s.a.lost || LosesAnchor(s, a),
             stage := if a.Launch? then Running(a.child, s.table.births)
                      else if a.LaunchFails? || a.Report? then Reported else s.a.stage)
    case _ => s.a
  }

  function Told(returncode: int): int {
    if returncode >= 0 then returncode else 128 - returncode
  }

  function PipesAfter(s: State, step: Step): Pipes {
    match step
    case Owned(Send) => s.pipes.(sent := true)
    case Owned(Close) => s.pipes.(closed := Some(s.now))
    case Owned(Vanish) => if s.pipes.closed.Some? then s.pipes else s.pipes.(closed := Some(s.now))
    case Watched(Deliver) => if Up(s) then s.pipes.(delivered := Some(s.now)) else s.pipes
    case Anchored(a) =>
      if LosesAnchor(s, a) || !(a.LaunchFails? || a.Report?) then s.pipes
      else s.pipes.(status := Some(if a.Report? then Told(a.returncode) else LAUNCH_FAILED_EXIT), statusAt := Some(s.now))
    case _ => s.pipes
  }

  /** A dead anchor's end of the status pipe is closed, which makes the other end readable. */
  function Settled(s: State): State {
    if Born(s) && !Up(s) && s.pipes.statusAt == None then s.(pipes := s.pipes.(statusAt := Some(s.now))) else s
  }

  /** What a step records: nothing, or one act. */
  function ActOf(s: State, step: Step): Option<Act> {
    var hit := Described(s.table, Group(s));
    match step
    case Watched(Interrupt(_)) => Some(Signalled(ByWatcher, INT, s.now, hit))
    case Watched(Terminate(_)) => Some(Signalled(ByWatcher, TERM, s.now, hit))
    case Watched(KillGroup) => Some(Signalled(ByWatcher, KILL, s.now, hit))
    case Watched(Wait) => Some(Reaped(ByWatcher, s.now))
    case Anchored(Expire) => Some(Signalled(ByAnchor, KILL, s.now, hit))
    case Elsewhere(_) => if ReapsAnchor(s, step) then Some(Reaped(ByInit, s.now)) else None
    case _ => None
  }

  function LogAfter(s: State, step: Step): seq<Act> {
    var act := ActOf(s, step);
    if act.Some? then s.log + [act.value] else s.log
  }

  function Apply(c: Config, s: State, step: Step): State
    requires Enabled(c, s, step)
  {
    Settled(State(
      if step == Tick then s.now + 1 else s.now,
      Perform(s.table, EffectOf(s, step)), OwnerAfter(s, step), WatcherAfter(c, s, step), AnchorAfter(s, step),
      PipesAfter(s, step), LogAfter(s, step)))
  }

  // ----- Runs -----

  ghost predicate Goes(c: Config, s: State, step: Step, t: State) {
    Enabled(c, s, step) && t == Apply(c, s, step)
  }

  ghost predicate IsRun(c: Config, run: seq<State>, steps: seq<Step>) {
    && |run| == |steps| + 1 && Init(run[0])
    && forall i {:trigger steps[i]} | 0 <= i < |steps| :: Goes(c, run[i], steps[i], run[i + 1])
  }

  ghost predicate Reachable(c: Config, s: State) {
    exists run, steps :: IsRun(c, run, steps) && run[|steps|] == s
  }
}
