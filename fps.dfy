/** Frame-rate accounting done at the end of every draw: count the frame,
    and once more than one window of 1000 ms has passed since the window
    started, report and restart the window. Times are whole milliseconds
    since the loop started (`u128` in the source, unbounded here). */
module Fps {

  /** Reporting window, in milliseconds; a duration equal to it does not report. */
  const FpsWindow: nat := 1000

  datatype FpsCounter = FpsCounter(frames: nat, startAt: nat)

  datatype Option<T> = None | Some(value: T)

  const InitialCounter := FpsCounter(0, 0)

  /** The window is over: `gameTime - startAt > FpsWindow`. */
  predicate WindowElapsed(c: FpsCounter, gameTime: nat)
    requires c.startAt <= gameTime
  {
    gameTime - c.startAt > FpsWindow
  }

  /** The counter after one draw at `gameTime`. The source subtracts
      `gameTime - startAt` on `u128`, which has no value below zero, hence
      the precondition; `Renderer.Draw` models the other case. */
  function FpsTick(c: FpsCounter, gameTime: nat): (r: FpsCounter)
    requires c.startAt <= gameTime
    // a window that is over restarts at `gameTime` with no frame counted ...
    ensures WindowElapsed(c, gameTime) <==> r.frames == 0
    ensures WindowElapsed(c, gameTime) ==> r.startAt == gameTime
    // ... otherwise the frame is counted in the current window
    ensures !WindowElapsed(c, gameTime) ==> r.frames == c.frames + 1 && r.startAt == c.startAt
    // the window never starts after the current time
    ensures c.startAt <= r.startAt <= gameTime
  {
    var counted := c.frames + 1;
    if gameTime - c.startAt > FpsWindow then FpsCounter(0, gameTime)
    else FpsCounter(counted, c.startAt)
  }

  /** A duration of exactly one window does not reset the counter. */
  lemma ExactWindowKeepsCounting(c: FpsCounter)
    ensures FpsTick(c, c.startAt + FpsWindow) == FpsCounter(c.frames + 1, c.startAt)
  {
  }

  /** `ts` never goes backwards. */
  predicate NonDecreasing(ts: seq<nat>) {
    forall i, j :: 0 <= i < j < |ts| ==> ts[i] <= ts[j]
  }

  /** The counter after a sequence of draws, or None when a draw's
      subtraction `gameTime - startAt` would fall below zero. */
  function FpsRun(c: FpsCounter, ts: seq<nat>): (r: Option<FpsCounter>)
    ensures r.Some? && ts != [] ==> r.value.startAt <= ts[|ts| - 1]
    decreases |ts|
  {
    if ts == [] then Some(c)
    else if c.startAt <= ts[0] then FpsRun(FpsTick(c, ts[0]), ts[1..])
    else None
  }

  /** With a clock that never goes backwards and a window that did not start
      after the first draw, no draw ever underflows, and the window start
      stays at or before the last draw. */
  lemma {:induction false} MonotoneClockNeverUnderflows(c: FpsCounter, ts: seq<nat>)
    requires NonDecreasing(ts)
    requires ts != [] ==> c.startAt <= ts[0]
    ensures FpsRun(c, ts).Some?
    ensures ts != [] ==> FpsRun(c, ts).value.startAt <= ts[|ts| - 1]
    decreases |ts|
  {
    if ts != [] {
      var next := FpsTick(c, ts[0]);
      assert ts[1..] != [] ==> next.startAt <= ts[1];
      MonotoneClockNeverUnderflows(next, ts[1..]);
    }
  }

  /** Draws that all fall within the current window are each counted once. */
  lemma {:induction false} CountsEveryDrawInWindow(c: FpsCounter, ts: seq<nat>)
    requires NonDecreasing(ts)
    requires forall i :: 0 <= i < |ts| ==> c.startAt <= ts[i] <= c.startAt + FpsWindow
    ensures FpsRun(c, ts) == Some(FpsCounter(c.frames + |ts|, c.startAt))
    decreases |ts|
  {
    if ts != [] {
      CountsEveryDrawInWindow(FpsTick(c, ts[0]), ts[1..]);
    }
  }
}
