/** The flash-sale countdown on the deals page. */
module Deals {

  datatype TimeLeft = TimeLeft(hours: int, minutes: int, seconds: int)

  function TotalSeconds(t: TimeLeft): int {
    3600 * t.hours + 60 * t.minutes + t.seconds
  }

  /** A clock reading: no negative field, minutes and seconds below 60. */
  predicate InRange(t: TimeLeft) {
    t.hours >= 0 && 0 <= t.minutes <= 59 && 0 <= t.seconds <= 59
  }

  /**
   * The `setTimeLeft` updater: the seconds count down; at zero seconds one minute is borrowed,
   * at zero minutes and seconds one hour; at 00:00:00 the reading stays.
   */
  method NextTimeLeft(prev: TimeLeft) returns (next: TimeLeft)
    ensures InRange(prev) ==> InRange(next)
    ensures InRange(prev) && TotalSeconds(prev) > 0 ==> TotalSeconds(next) == TotalSeconds(prev) - 1
    ensures InRange(prev) && TotalSeconds(prev) == 0 ==> next == prev
    ensures next.minutes != prev.minutes ==> prev.seconds <= 0
    ensures next.hours != prev.hours ==> prev.seconds <= 0 && prev.minutes <= 0
  {
    var hours, minutes, seconds := prev.hours, prev.minutes, prev.seconds;
    if seconds > 0 {
      seconds := seconds - 1;
    } else if minutes > 0 {
      minutes := minutes - 1;
      seconds := 59;
    } else if hours > 0 {
      hours := hours - 1;
      minutes := 59;
      seconds := 59;
    }
    next := TimeLeft(hours, minutes, seconds);
  }

  /** The page's timer state, advanced once a second by the interval. */
  class Countdown {
    var timeLeft: TimeLeft

    ghost predicate Valid()
      reads this
    {
      InRange(timeLeft)
    }

    constructor ()
      ensures Valid() && timeLeft == TimeLeft(23, 45, 30)
    {
      timeLeft := TimeLeft(23, 45, 30);
    }

    /** One tick: the reading stays a valid clock reading and loses one second, down to zero. */
    method Tick()
      requires Valid()
      modifies this
      ensures Valid()
      ensures TotalSeconds(timeLeft) == if TotalSeconds(old(timeLeft)) > 0 then TotalSeconds(old(timeLeft)) - 1 else 0
    {
      timeLeft := NextTimeLeft(timeLeft);
    }
  }
}
