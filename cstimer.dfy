/**
 * The speedcubing timer (src/components/CSTimerUI.jsx): hold Space to
 * arm, release to start, press again to stop.  Phases go
 * Idle -> Hold -> Ready -> Running -> Stopped -> Idle, driven by Space
 * key presses and releases and two timeouts (the 500 ms hold and the
 * 1200 ms reset).  Stopped solves are kept newest first.
 */
module CSTimer {
  import opened Rules

  datatype Phase = Idle | Hold | Ready | Running | Stopped

  datatype Key = Space | OtherKey

  /**
   * What can happen to the timer.  `now` is the clock reading in
   * milliseconds at a key event; the two timeouts fire as events of
   * their own.
   */
  datatype Event = KeyDown(key: Key, now: real) | KeyUp(key: Key, now: real) | HoldElapsed | ResetElapsed

  /** The timer's state; `holdArmed` says the hold timeout is scheduled and not cleared. */
  datatype TimerState = TimerState(phase: Phase, history: seq<real>, startTime: real, holdArmed: bool)

  /** The next state, and the time reported to `onSolve` if this event stopped a solve. */
  datatype StepResult = StepResult(state: TimerState, solved: Option<real>)

  const Initial: TimerState := TimerState(Idle, [], 0.0, false)

  /** The hold timeout is armed exactly while the timer is in Hold. */
  predicate Consistent(s: TimerState)
  {
    s.holdArmed <==> s.phase == Hold
  }

  /** One event, as the key handlers and the two timeouts process it. */
  function Step(s: TimerState, e: Event): (r: StepResult)
    ensures (e.KeyDown? || e.KeyUp?) && e.key != Space ==> r == StepResult(s, None)
    ensures r.solved.Some? <==> e.KeyDown? && e.key == Space && s.phase == Running
    ensures r.solved.Some? ==>
      && r.solved.value == (e.now - s.startTime) / 1000.0
      && r.state.history == [r.solved.value] + s.history
      && r.state.phase == Stopped
    ensures r.solved.None? ==> r.state.history == s.history
    ensures Consistent(s) ==> Consistent(r.state)
  {
    match e
    case KeyDown(key, now) =>
      if key != Space then StepResult(s, None)
      else if s.phase == Idle then StepResult(s.(phase := Hold, holdArmed := true), None)
      else if s.phase == Running then
        var final := (now - s.startTime) / 1000.0;
        StepResult(s.(phase := Stopped, history := [final] + s.history), Some(final))
      else StepResult(s, None)
    case KeyUp(key, now) =>
      if key != Space then StepResult(s, None)
      else if s.phase == Hold then StepResult(s.(phase := Idle, holdArmed := false), None)
      else if s.phase == Ready then StepResult(s.(phase := Running, startTime := now), None)
      else StepResult(s, None)
    case HoldElapsed =>
      if s.holdArmed then StepResult(s.(phase := Ready, holdArmed := false), None)
      else StepResult(s, None)
    case ResetElapsed =>
      if s.phase == Stopped then StepResult(s.(phase := Idle), None)
      else StepResult(s, None)
  }

  /**
   * The whole transition table: in a consistent state, an event either
   * leaves the state unchanged or is one of the six listed moves.
   */
  lemma StepTable(s: TimerState, e: Event)
    requires Consistent(s)
    ensures var r := Step(s, e).state;
      || r == s
      || (s.phase == Idle && e == KeyDown(Space, e.now) && r.phase == Hold)
      || (s.phase == Hold && e == HoldElapsed && r.phase == Ready)
      || (s.phase == Hold && e == KeyUp(Space, e.now) && r.phase == Idle)
      || (s.phase == Ready && e == KeyUp(Space, e.now) && r.phase == Running && r.startTime == e.now)
      || (s.phase == Running && e == KeyDown(Space, e.now) && r.phase == Stopped)
      || (s.phase == Stopped && e == ResetElapsed && r.phase == Idle)
  {
  }

  /** The times of `ts` in reverse order. */
  function Reversed(ts: seq<real>): seq<real>
  {
    if ts == [] then [] else Reversed(ts[1..]) + [ts[0]]
  }

  /**
   * Events applied in order: the final state and the solves reported, in
   * order.  The history ends up as the reported solves, newest first, in
   * front of the history the run started from.
   */
  function Run(s: TimerState, events: seq<Event>): (r: (TimerState, seq<real>))
    ensures |r.1| <= |events|
    ensures r.0.history == Reversed(r.1) + s.history
    decreases |events|
  {
    if events == [] then (s, [])
    else
      var step := Step(s, events[0]);
      var rest := Run(step.state, events[1..]);
      match step.solved
      case None => rest
      case Some(t) =>
        assert ([t] + rest.1)[1..] == rest.1;
        (rest.0, [t] + rest.1)
  }

  /**
   * A complete solve from Idle (press, hold long enough, release at
   * `start`, press at `stop`, reset timeout) reports one time, exactly
   * the elapsed seconds, prepends it to the history and ends in Idle.
   */
  lemma FullSolve(history: seq<real>, startTime: real, pressed: real, start: real, stop: real)
    ensures var s := TimerState(Idle, history, startTime, false);
      var events := [KeyDown(Space, pressed), HoldElapsed, KeyUp(Space, start), KeyDown(Space, stop), ResetElapsed];
      var r := Run(s, events);
      && r.1 == [(stop - start) / 1000.0]
      && r.0 == TimerState(Idle, [(stop - start) / 1000.0] + history, start, false)
  {
    var s := TimerState(Idle, history, startTime, false);
    var events := [KeyDown(Space, pressed), HoldElapsed, KeyUp(Space, start), KeyDown(Space, stop), ResetElapsed];
    var final := (stop - start) / 1000.0;
    var ready := TimerState(Ready, history, startTime, false);
    var running := TimerState(Running, history, start, false);
    var stopped := TimerState(Stopped, [final] + history, start, false);
    var idle := TimerState(Idle, [final] + history, start, false);
    assert Run(idle, events[4..][1..]) == (idle, []);
    assert Run(stopped, events[4..]) == (idle, []);
    assert Run(running, events[3..]) == (idle, [final]) by {
      assert events[3..][1..] == events[4..];
      assert events[3..][0] == KeyDown(Space, stop);
      assert Step(running, KeyDown(Space, stop)) == StepResult(stopped, Some(final));
      assert [final] + [] == [final];
    }
    assert Run(ready, events[2..]) == (idle, [final]) by {
      assert events[2..][1..] == events[3..];
    }
    assert Run(s, events) == (idle, [final]) by {
      assert events[1..][1..] == events[2..];
      assert Step(s, events[0]).state == TimerState(Hold, history, startTime, true);
    }
  }

  /**
   * Releasing Space before the hold timeout aborts: back to Idle, the
   * timeout cleared, nothing recorded.
   */
  lemma EarlyReleaseAborts(history: seq<real>, startTime: real, pressed: real, released: real)
    ensures var s := TimerState(Idle, history, startTime, false);
      Run(s, [KeyDown(Space, pressed), KeyUp(Space, released), HoldElapsed]) == (s, [])
  {
    var s := TimerState(Idle, history, startTime, false);
    var events := [KeyDown(Space, pressed), KeyUp(Space, released), HoldElapsed];
    assert Run(s, events[2..][1..]) == (s, []);
    assert Run(s, events[2..]) == (s, []);
    assert Run(s, events) == (s, []) by {
      assert events[1..][1..] == events[2..];
      assert Step(s, events[0]).state == TimerState(Hold, history, startTime, true);
    }
  }

  /** The history list shows the five most recent solves at most, newest first. */
  function Displayed(history: seq<real>): (shown: seq<real>)
    ensures |shown| == Min(5, |history|)
    ensures forall k :: 0 <= k < |shown| ==> shown[k] == history[k]
  {
    history[..Min(5, |history|)]
  }

  /** The timer component: phase, newest-first history and the two refs the handlers update. */
  class Timer {
    var phase: Phase
    var history: seq<real>
    var startTime: real
    var holdArmed: bool

    function State(): TimerState
      reads this
    {
      TimerState(phase, history, startTime, holdArmed)
    }

    ghost predicate Valid()
      reads this
    {
      Consistent(State())
    }

    constructor ()
      ensures Valid() && State() == Initial
    {
      phase := Idle;
      history := [];
      startTime := 0.0;
      holdArmed := false;
    }

    /** `handleKeyDown`: arms the hold from Idle, stops a running solve and reports it. */
    method KeyDown(key: Key, now: real) returns (solved: Option<real>)
      requires Valid()
      modifies this
      ensures Valid()
      ensures StepResult(State(), solved) == Step(old(State()), Event.KeyDown(key, now))
    {
      solved := None;
      if key != Space {
        return;
      }
      if phase == Idle {
        phase := Hold;
        holdArmed := true;
      } else if phase == Running {
        phase := Stopped;
        var final := (now - startTime) / 1000.0;
        history := [final] + history;
        solved := Some(final);
      }
    }

    /** `handleKeyUp`: aborts a hold, or starts the solve from Ready. */
    method KeyUp(key: Key, now: real)
      requires Valid()
      modifies this
      ensures Valid()
      ensures State() == Step(old(State()), Event.KeyUp(key, now)).state
    {
      if key != Space {
        return;
      }
      if phase == Hold {
        holdArmed := false;
        phase := Idle;
      } else if phase == Ready {
        phase := Running;
        startTime := now;
      }
    }

    /** The 500 ms hold timeout firing, if it is still scheduled. */
    method HoldTimeout()
      requires Valid()
      modifies this
      ensures Valid()
      ensures State() == Step(old(State()), HoldElapsed).state
    {
      if holdArmed {
        holdArmed := false;
        phase := Ready;
      }
    }

    /** The 1200 ms reset timeout, scheduled while Stopped. */
    method ResetTimeout()
      requires Valid()
      modifies this
      ensures Valid()
      ensures State() == Step(old(State()), ResetElapsed).state
    {
      if phase == Stopped {
        phase := Idle;
      }
    }
  }
}
