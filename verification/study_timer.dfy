/**
 * The basic study timer: fixed 25-minute study periods and 5-minute breaks,
 * strictly alternating, with a session count that reset does not clear.
 */
module StudyTimer {
  const StudySeconds := 25 * 60
  const BreakSeconds := 5 * 60

  datatype Phase = Study | Break

  /** The fixed length of each phase in seconds. */
  function PhaseLength(p: Phase): (r: nat)
    ensures r == if p == Study then 1500 else 300
  {
    if p == Study then StudySeconds else BreakSeconds
  }

  /** The phase label. */
  function PhaseLabel(p: Phase): (r: string)
    ensures p.Study? <==> r == "Study Time"
    ensures p.Break? <==> r == "Break Time"
  {
    match p
    case Study => "Study Time"
    case Break => "Break Time"
  }

  class BasicTimer {
    var time: int
    var isRunning: bool
    var mode: Phase
    var sessions: nat

    /** Time stays within the current phase's length. */
    predicate Valid()
      reads this
    {
      0 <= time <= PhaseLength(mode)
    }

    constructor ()
      ensures Valid()
      ensures time == 1500 && !isRunning && mode == Study && sessions == 0
    {
      time := StudySeconds;
      isRunning := false;
      mode := Study;
      sessions := 0;
    }

    /**
     * One run of the effect: a tick while running with time left; at zero,
     * stop and switch phase, counting a session when a study period ends.
     */
    method Step()
      requires Valid()
      modifies this
      ensures Valid()
      ensures old(isRunning) && old(time) > 0 ==>
        time == old(time) - 1 && isRunning && mode == old(mode) && sessions == old(sessions)
      ensures !(old(isRunning) && old(time) > 0) && old(time) == 0 ==>
        !isRunning && mode != old(mode) && time == PhaseLength(mode) &&
        sessions == (if old(mode) == Study then old(sessions) + 1 else old(sessions))
      ensures !(old(isRunning) && old(time) > 0) && old(time) != 0 ==>
        time == old(time) && isRunning == old(isRunning) && mode == old(mode) && sessions == old(sessions)
    {
      if isRunning && time > 0 {
        time := time - 1;
      } else if time == 0 {
        isRunning := false;
        if mode == Study {
          sessions := sessions + 1;
          mode := Break;
          time := BreakSeconds;
        } else {
          mode := Study;
          time := StudySeconds;
        }
      }
    }

    /** The start/pause button. */
    method ToggleRunning()
      requires Valid()
      modifies this
      ensures Valid()
      ensures isRunning == !old(isRunning)
      ensures time == old(time) && mode == old(mode) && sessions == old(sessions)
    {
      isRunning := !isRunning;
    }

    /** `resetTimer`: stop and start a fresh study period; the session count is kept. */
    method Reset()
      requires Valid()
      modifies this
      ensures Valid()
      ensures !isRunning && time == 1500 && mode == Study
      ensures sessions == old(sessions)
    {
      isRunning := false;
      time := StudySeconds;
      mode := Study;
    }
  }

  /**
   * A study period left to run out and finish, then the break likewise,
   * counts one session and comes back to a full study period.
   */
  method StudyThenBreak(t: BasicTimer) returns (ticks: nat)
    requires t.Valid() && t.mode == Study && t.time == 1500
    modifies t
    ensures t.Valid() && t.mode == Study && t.time == 1500 && !t.isRunning
    ensures t.sessions == old(t.sessions) + 1
    ensures ticks == 1800
  {
    var a := RunOut(t);
    t.Step();
    var b := RunOut(t);
    t.Step();
    ticks := a + b;
  }

  /** Starts the timer if it is paused and ticks until the phase runs out. */
  method RunOut(t: BasicTimer) returns (ticks: nat)
    requires t.Valid()
    modifies t
    ensures t.Valid() && t.time == 0 && t.isRunning
    ensures ticks == old(t.time)
    ensures t.mode == old(t.mode) && t.sessions == old(t.sessions)
  {
    if !t.isRunning {
      t.ToggleRunning();
    }
    ticks := 0;
    while t.time > 0
      invariant t.Valid() && t.isRunning
      invariant ticks + t.time == old(t.time)
      invariant t.mode == old(t.mode) && t.sessions == old(t.sessions)
      decreases t.time
    {
      t.Step();
      ticks := ticks + 1;
    }
  }
}
