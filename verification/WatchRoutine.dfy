/** The watcher's own routine, step by step: its descriptors, its completed flag and its cleanup. */
module WatchRoutine {
  import opened ProcessTable
  import opened Values
  import opened Watchdog
  import opened WatchdogSafety

  datatype Fd = Control | StatusRead | StatusWrite

  /**
   * What the routine meets, in its order: the payload's deadline (None when it is no number), the clock and the
   * control pipe before the spawn, whether the spawn and the delivery succeed, the clock at the loop, what select
   * reports, and what the status pipe holds.
   */
  datatype Script = Script(
    deadline: Option<int>, startedAt: int, ownerGone: bool, spawns: bool, delivers: bool, loopAt: int,
    controlReady: bool, statusReady: bool, status: string, number: string -> Option<int>)

  datatype Ending = Returns(code: int) | Raises

  /** It spawns an anchor: there is time, the owner is there, and the spawn succeeds. */
  predicate SpawnsAnchor(script: Script) {
    script.deadline.Some? && script.startedAt < script.deadline.value && !script.ownerGone && script.spawns
  }

  /** It reads a status: the payload was delivered in time, and select reports the status pipe alone. */
  predicate ReadsStatus(script: Script) {
    && SpawnsAnchor(script) && script.delivers && script.loopAt < script.deadline.value
    && script.statusReady && !script.controlReady
  }

  predicate Completes(script: Script) {
    ReadsStatus(script) && script.status != ""
  }

  /** How the routine ends, by what it meets. */
  function EndingOf(script: Script): Ending {
    if script.deadline.None? then Raises
    else if script.deadline.value <= script.startedAt || script.ownerGone then Returns(TIMEOUT_EXIT)
    else if !script.spawns || !script.delivers then Raises
    else if !ReadsStatus(script) then Returns(TIMEOUT_EXIT)
    else if script.status == "" then Returns(LOST_ANCHOR_EXIT)
    else
      var code := script.number(script.status);
      if code.Some? then Returns(code.value) else Raises
  }

  // ----- The protocol's watcher under the same circumstances -----

  /** The states of the protocol at the moments when the watcher acts. */
  datatype Moments = Moments(read: State, spawn: State, deliver: State, enter: State, report: State)

  /** The script says what the watcher meets at those moments. */
  predicate Describes(c: Config, m: Moments, script: Script) {
    && m.read.w.phase == Boot && !m.read.w.completed && m.read.pipes.sent
    && script.deadline == Some(c.deadline) && script.startedAt == m.read.now
    && script.ownerGone == m.read.pipes.closed.Some? && script.delivers == Up(m.deliver)
    && script.loopAt == m.enter.now
    && script.controlReady == m.report.pipes.closed.Some? && script.statusReady == m.report.pipes.statusAt.Some?
    && (script.status == "" <==> m.report.pipes.status.None?)
    && (script.status != "" ==> script.number(script.status) == m.report.pipes.status)
  }

  function Acting(s: State, w: Watcher): State {
    s.(w := w)
  }

  /** The watcher after its steps up to the cleanup. */
  function WatcherThrough(c: Config, m: Moments, spawns: bool, pid: Pid): Watcher {
    var asked := WatcherDoes(c, m.read, Read);
    if asked.phase == Exited then asked
    else
      var spawned := WatcherDoes(c, Acting(m.spawn, asked), if spawns then SpawnAnchor(pid) else SpawnFails);
      if spawned.phase == Exited then spawned
      else
        var told := WatcherDoes(c, Acting(m.deliver, spawned), Deliver);
        if told.phase == Interrupting then told else Reported(c, m, told)
  }

  function Reported(c: Config, m: Moments, told: Watcher): Watcher {
    var entered := WatcherDoes(c, Acting(m.enter, told), EnterLoop);
    if entered.phase == Interrupting then entered
    else
      var ready := m.report.pipes.closed.Some? || m.report.pipes.statusAt.Some?;
      WatcherDoes(c, Acting(m.report, entered), if ready then Wake else TimeOut)
  }

  /**
   * The routine is the protocol's watcher: under the same circumstances both spawn or not, complete or not and end
   * alike, and the protocol's watcher then stands where the routine's cleanup begins.
   */
  lemma RoutineIsTheProtocol(c: Config, m: Moments, script: Script, pid: Pid)
    requires Describes(c, m, script)
    ensures var w := WatcherThrough(c, m, script.spawns, pid);
      && w.phase == (if !SpawnsAnchor(script) then Exited else if Completes(script) then Killing else Interrupting)
      && (w.completed <==> Completes(script))
      && w.code == match EndingOf(script) case Returns(code) => code case Raises => 1
  {
    var asked := WatcherDoes(c, m.read, Read);
    if asked.phase != Exited && script.spawns && script.delivers {
      var told := WatcherDoes(c, Acting(m.deliver, WatcherDoes(c, Acting(m.spawn, asked), SpawnAnchor(pid))), Deliver);
      assert told.phase == LoopTop && !told.completed;
    }
  }

  class Routine {
    var statusWriteOpen: bool
    var anchored: bool
    var completed: bool
    var closed: seq<Fd>
    var moves: seq<Move>

    constructor ()
      ensures statusWriteOpen && !anchored && !completed && closed == [] && moves == []
    {
      statusWriteOpen, anchored, completed, closed, moves := true, false, false, [], [];
    }

    /** The try block of _watch. */
    method Attempt(script: Script) returns (ending: Ending)
      requires statusWriteOpen && !anchored && !completed && closed == []
      modifies this
      ensures moves == old(moves)
      ensures anchored <==> SpawnsAnchor(script)
      ensures completed <==> Completes(script)
      ensures ending == EndingOf(script)
      ensures ending == Raises <==>
        || script.deadline.None?
        || (script.startedAt < script.deadline.value && !script.ownerGone && !(script.spawns && script.delivers))
        || (completed && script.number(script.status).None?)
      ensures ending.Returns? && completed ==> Some(ending.code) == script.number(script.status)
      ensures ending.Returns? && !completed ==>
        ending.code == if ReadsStatus(script) then LOST_ANCHOR_EXIT else TIMEOUT_EXIT
      ensures statusWriteOpen == !anchored && closed == if anchored then [StatusWrite] else []
    {
      if script.deadline.None? { return Raises; }
      var deadline := script.deadline.value;
      if script.startedAt >= deadline || script.ownerGone { return Returns(TIMEOUT_EXIT); }
      if !script.spawns { return Raises; }
      anchored := true;
      closed := closed + [StatusWrite];
      statusWriteOpen := false;
      if !script.delivers { return Raises; }
      // every report of select ends the loop, so it is never entered again
      if deadline - script.loopAt <= 0 { return Returns(TIMEOUT_EXIT); }
      if script.controlReady || !script.statusReady { return Returns(TIMEOUT_EXIT); }
      completed := script.status != "";
      if !completed { return Returns(LOST_ANCHOR_EXIT); }
      var code := script.number(script.status);
      ending := if code.Some? then Returns(code.value) else Raises;
    }

    /** The finally block of _watch, up to its descriptors. */
    method SignalAndReap()
      requires moves == []
      modifies this`moves
      ensures moves == if anchored then Plan(completed) else []
    {
      if anchored {
        if !completed {
          moves := moves + [Sends(INT)];
          moves := moves + [Sends(TERM)];
        }
        moves := moves + [Sends(KILL)];
        moves := moves + [Reaps];
      }
    }

    /**
     * _watch: on every way out, each descriptor is closed exactly once, and a spawned anchor gets exactly the plan
     * that its completion calls for, ending with its reaping.
     */
    method Watch(script: Script) returns (ending: Ending)
      requires statusWriteOpen && !anchored && !completed && closed == [] && moves == []
      modifies this
      ensures closed ==
        if SpawnsAnchor(script) then [StatusWrite, StatusRead, Control] else [StatusRead, StatusWrite, Control]
      ensures moves ==
        if SpawnsAnchor(script) then Plan(Completes(script)) else []
      ensures ending == EndingOf(script)
      ensures ending.Returns? && ending.code != TIMEOUT_EXIT ==> ReadsStatus(script)
    {
      ending := Attempt(script);
      SignalAndReap();
      closed := closed + [StatusRead];
      if statusWriteOpen {
        closed := closed + [StatusWrite];
      }
      closed := closed + [Control];
    }
  }
}
