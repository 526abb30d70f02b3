/** The crossword play page's clock: a seconds counter driven by a one-second
    interval, a pause toggle and the exit button. */
module Crosswords {

  /** The page state. `isPlaying` has no setter in the page, so it is a constant here. */
  class CrosswordClock {
    const isPlaying: bool
    var isPaused: bool
    var timer: nat
    var leftPage: bool

    /** The clock shows zero and only ever shows zero: play never starts. */
    predicate Valid()
      reads this
    {
      !isPlaying && timer == 0
    }

    constructor ()
      ensures Valid() && !isPaused && !leftPage
    {
      isPlaying := false;
      isPaused := false;
      timer := 0;
      leftPage := false;
    }

    /** One firing of the one-second interval. The interval exists only while the
        page is playing and not paused, so any other tick leaves the counter alone. */
    method Tick()
      modifies this
      ensures timer == if isPlaying && !isPaused then old(timer) + 1 else old(timer)
      ensures isPaused == old(isPaused) && leftPage == old(leftPage)
    {
      if isPlaying && !isPaused {
        timer := timer + 1;
      }
    }

    /** The pause button flips the paused flag and nothing else. */
    method TogglePause()
      modifies this
      ensures isPaused == !old(isPaused)
      ensures timer == old(timer) && leftPage == old(leftPage)
    {
      isPaused := !isPaused;
    }

    /** The exit button pauses, reports a play (whose failure is only logged) and
        always navigates home. */
    method Exit(playCountFailed: bool)
      modifies this
      ensures isPaused && leftPage
      ensures timer == old(timer)
    {
      isPaused := true;
      leftPage := true;
    }
  }

  /** What can happen to the page: the interval fires, the pause button, the exit button. */
  datatype ClockEvent = IntervalFired | PauseClicked | ExitClicked(playCountFailed: bool)

  /** Whatever sequence of ticks, toggles and exits the page sees, the clock keeps showing zero. */
  method ClockStaysAtZero(events: seq<ClockEvent>) returns (c: CrosswordClock)
    ensures c.timer == 0 && !c.isPlaying
  {
    c := new CrosswordClock();
    var i := 0;
    while i < |events|
      invariant 0 <= i <= |events|
      invariant c.Valid()
    {
      match events[i] {
        case IntervalFired => c.Tick();
        case PauseClicked => c.TogglePause();
        case ExitClicked(failed) => c.Exit(failed);
      }
      i := i + 1;
    }
  }
}
