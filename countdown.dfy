/**
 * The countdown of the christmas-shop page (service/Countdown.js).
 *
 * On creation the countdown checks that its four display elements (days,
 * hours, minutes, seconds) exist, sets a counter to the whole seconds left
 * until the target date and starts a one-second interval. Each tick shows
 * the counter split into days, hours, minutes and seconds and decrements
 * it; the tick that finds the counter negative clears the interval, but
 * still shows and decrements. The clock is a parameter; a tick is a call.
 */
module Countdown {

  import opened Wrappers

  const SecondsPerMinute := 60
  const SecondsPerHour := 3600
  const SecondsPerDay := 3600 * 24
  const MillisPerSecond := 1000

  /** Math.floor(a / b) for an integer a and a positive integer b. */
  function FloorDiv(a: int, b: int): (q: int)
    requires b > 0
    ensures q * b <= a < q * b + b
  {
    a / b
  }

  /**
   * JavaScript's a % b for an integer a and a positive integer b: the
   * remainder of the division truncated toward zero, with the sign of a.
   */
  function JsRem(a: int, b: int): (r: int)
    requires b > 0
    ensures -b < r < b
    ensures a >= 0 ==> r >= 0
    ensures a <= 0 ==> r <= 0
    ensures exists q :: a == q * b + r
  {
    if a >= 0 then
      assert a == (a / b) * b + a % b;
      a % b
    else
      assert -a == ((-a) / b) * b + (-a) % b;
      assert a == (-((-a) / b)) * b + -((-a) % b);
      -((-a) % b)
  }

  /** The four values a tick writes into the displays. */
  datatype Clock = Clock(days: int, hours: int, minutes: int, seconds: int)

  /** The split #update computes from the counter s. */
  function Decompose(s: int): Clock
  {
    Clock(FloorDiv(s, SecondsPerDay),
          FloorDiv(JsRem(s, SecondsPerDay), SecondsPerHour),
          FloorDiv(JsRem(s, SecondsPerHour), SecondsPerMinute),
          JsRem(s, SecondsPerMinute))
  }

  /** The number of seconds a clock reading stands for. */
  function TotalSeconds(c: Clock): int
  {
    c.days * SecondsPerDay + c.hours * SecondsPerHour + c.minutes * SecondsPerMinute + c.seconds
  }

  /**
   * For a counter that is not negative the split is exact: the reading adds
   * up to the counter, and hours, minutes and seconds are in range.
   */
  lemma DecomposeNonNegative(s: int)
    requires s >= 0
    ensures TotalSeconds(Decompose(s)) == s
    ensures Decompose(s).days >= 0
    ensures 0 <= Decompose(s).hours < 24
    ensures 0 <= Decompose(s).minutes < 60
    ensures 0 <= Decompose(s).seconds < 60
  {
    var d := s / SecondsPerDay;
    var rd := s % SecondsPerDay;
    var h := rd / SecondsPerHour;
    var rh := s % SecondsPerHour;
    assert s == d * SecondsPerDay + rd;
    assert rd == h * SecondsPerHour + rd % SecondsPerHour;
    assert rd % SecondsPerHour == rh by {
      assert s == (d * 24 + h) * SecondsPerHour + rd % SecondsPerHour;
    }
    assert rh == (rh / SecondsPerMinute) * SecondsPerMinute + s % SecondsPerMinute by {
      assert s == (d * 1440 + h * 60 + rh / SecondsPerMinute) * SecondsPerMinute + rh % SecondsPerMinute;
    }
  }

  /**
   * For a negative counter the days are floored while the other three are
   * truncated remainders: every field is at most 0, and within a minute
   * below 0 the reading shows -1 for days, hours and minutes and no longer
   * adds up to the counter. When the target is still ahead at start, the
   * last tick runs at -1 and shows -1 everywhere; when it has passed, the
   * first tick is already the last and runs at the negative counter.
   */
  lemma DecomposeNegative(s: int)
    requires s < 0
    ensures Decompose(s).days < 0
    ensures -24 <= Decompose(s).hours <= 0
    ensures -60 <= Decompose(s).minutes <= 0
    ensures -60 < Decompose(s).seconds <= 0
    ensures -60 < s ==> Decompose(s) == Clock(-1, -1, -1, s) && TotalSeconds(Decompose(s)) != s
  {
  }

  /** Which of the four display elements the page has. */
  datatype Displays = Displays(days: bool, hours: bool, minutes: bool, seconds: bool)
  {
    predicate AllPresent() { days && hours && minutes && seconds }
  }

  class Countdown {
    const displays: Displays
    /** The counter (#seconds). */
    var seconds: int
    /** The interval is set and not cleared. */
    var running: bool
    /** What the displays show; None while they still hold the page's own text. */
    var shown: Option<Clock>

    /** The interval only runs when every display exists. */
    ghost predicate Valid()
      reads this
    {
      running ==> displays.AllPresent()
    }

    /** Looks up the displays, then starts (#start) with the given target and current times in milliseconds. */
    constructor (displays: Displays, targetMs: int, nowMs: int)
      ensures Valid()
      ensures this.displays == displays && shown == None
      ensures !displays.AllPresent() ==> seconds == 0 && !running
      ensures displays.AllPresent() ==> running
      ensures displays.AllPresent() ==>
        seconds * MillisPerSecond <= targetMs - nowMs < seconds * MillisPerSecond + MillisPerSecond
    {
      this.displays := displays;
      seconds := 0;
      running := false;
      shown := None;
      new;
      Start(targetMs, nowMs);
    }

    /**
     * #start: with a display missing nothing happens; otherwise the counter
     * becomes the whole seconds to the target and the interval starts.
     */
    method Start(targetMs: int, nowMs: int)
      requires Valid()
      modifies this`seconds, this`running
      ensures Valid()
      ensures !displays.AllPresent() ==> seconds == old(seconds) && running == old(running)
      ensures displays.AllPresent() ==> running && seconds == FloorDiv(targetMs - nowMs, MillisPerSecond)
    {
      if !displays.AllPresent() {
        return;
      }
      var diff := targetMs - nowMs;
      seconds := FloorDiv(diff, MillisPerSecond);
      running := true;
    }

    /**
     * #update, called by the interval: a negative counter clears the
     * interval; in every case the displays show the split counter and the
     * counter goes down by one.
     */
    method Tick()
      requires Valid() && running
      modifies this`seconds, this`running, this`shown
      ensures Valid()
      ensures seconds == old(seconds) - 1
      ensures running == (old(seconds) >= 0)
      ensures shown == Some(Decompose(old(seconds)))
    {
      if seconds < 0 {
        running := false;
      }
      var days := FloorDiv(seconds, SecondsPerDay);
      var hours := FloorDiv(JsRem(seconds, SecondsPerDay), SecondsPerHour);
      var minutes := FloorDiv(JsRem(seconds, SecondsPerHour), SecondsPerMinute);
      var secs := JsRem(seconds, SecondsPerMinute);
      shown := Some(Clock(days, hours, minutes, secs));
      seconds := seconds - 1;
    }
  }
}
