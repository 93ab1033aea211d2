/**
 * Frame timing of the render loop.
 *
 * The loop keeps the timestamp of the previous frame in `lastTime`, where 0
 * means that no frame has run yet (the script tests it for falsiness).
 * Timestamps are in milliseconds; the elapsed time handed to the tiles is in
 * seconds.
 */
module FrameClock {

  /** Milliseconds per second. */
  const MillisPerSecond: real := 1000.0

  /** Seconds to advance the tiles by in a frame at `time`, given the previous timestamp. */
  function ElapsedSeconds(lastTime: real, time: real): (r: real)
    ensures lastTime == 0.0 ==> r == 0.0
    ensures lastTime != 0.0 ==> r * MillisPerSecond == time - lastTime
  {
    var start := if lastTime == 0.0 then time else lastTime;
    (time - start) / MillisPerSecond
  }

  /** Seconds handed to the tiles over a run of frames at `times`, starting from `lastTime`. */
  function TotalElapsed(lastTime: real, times: seq<real>): real
    decreases |times|
  {
    if times == [] then 0.0
    else ElapsedSeconds(lastTime, times[0]) + TotalElapsed(times[0], times[1..])
  }

  /**
   * Once a frame has run, the elapsed times of the following frames add up to
   * the wall-clock time between the previous frame and the last one, provided
   * no frame but the last is stamped 0 (which the loop reads as "no frame yet").
   */
  lemma {:induction false} TotalElapsedTelescopes(lastTime: real, times: seq<real>)
    requires lastTime != 0.0 && |times| > 0
    requires forall k :: 0 <= k < |times| - 1 ==> times[k] != 0.0
    ensures TotalElapsed(lastTime, times) * MillisPerSecond == times[|times| - 1] - lastTime
    decreases |times|
  {
    if |times| > 1 {
      TotalElapsedTelescopes(times[0], times[1..]);
    }
  }

  /**
   * From the very first frame, the elapsed times add up to the wall-clock time
   * between the first frame and the last: the first frame contributes nothing.
   */
  lemma {:induction false} FirstRunTelescopes(times: seq<real>)
    requires |times| > 0
    requires forall k :: 0 <= k < |times| - 1 ==> times[k] != 0.0
    ensures TotalElapsed(0.0, times) * MillisPerSecond == times[|times| - 1] - times[0]
  {
    if |times| > 1 {
      TotalElapsedTelescopes(times[0], times[1..]);
    }
  }
}
