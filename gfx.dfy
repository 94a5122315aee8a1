/** The renderer: its spin flags, angles, viewport and frame counter,
    updated in place by the setters, `Update`, `Draw` and the run loop.
    Window, GPU and shader objects are not part of this model. */
module Gfx {
  import opened Spin
  import opened Fps
  import opened Input
  import opened Projection
  import opened Machine

  class Renderer {
    var spinHNeg: bool
    var spinHPos: bool
    var spinVNeg: bool
    var spinVPos: bool
    /** Rotation about x (driven by vertical spin) and about y (horizontal), in half-turns. */
    var xAngle: real
    var yAngle: real
    /** The virtual viewport the projection matrix is built from. */
    var viewport: Viewport
    var frameRenderedCount: nat
    var fpsStartAt: nat
    /** The run loop's queue of key commands. */
    var commands: seq<Command>

    function Flags(): SpinFlags
      reads this
    {
      SpinFlags(spinHNeg, spinHPos, spinVNeg, spinVPos)
    }

    function Fps(): FpsCounter
      reads this
    {
      FpsCounter(frameRenderedCount, fpsStartAt)
    }

    /** The state the run loop works on. */
    function Snapshot(): State
      reads this
    {
      State(Flags(), xAngle, yAngle, Fps(), commands)
    }

    /** A renderer for a window of `width` by `height` pixels: no spin, zero
        angles, an empty frame count and command queue. */
    constructor (width: int, height: int)
      requires width > 0 && height > 0
      ensures Snapshot() == Initial
      ensures viewport == VirtualViewport(width, height)
    {
      spinHNeg, spinHPos, spinVNeg, spinVPos := false, false, false, false;
      xAngle, yAngle := 0.0, 0.0;
      viewport := VirtualViewport(width, height);
      frameRenderedCount, fpsStartAt := 0, 0;
      commands := [];
    }

    /** Recomputes the projection's viewport for a new window size. */
    method RefreshViewport(width: int, height: int)
      requires width > 0 && height > 0
      modifies this`viewport
      ensures viewport == VirtualViewport(width, height)
      ensures Snapshot() == old(Snapshot())
    {
      viewport := VirtualViewport(width, height);
    }

    method SetSpinHNeg(on: bool)
      modifies this`spinHNeg
      ensures Snapshot() == old(Snapshot()).(flags := old(Flags()).(hNeg := on))
    {
      spinHNeg := on;
    }

    method SetSpinHPos(on: bool)
      modifies this`spinHPos
      ensures Snapshot() == old(Snapshot()).(flags := old(Flags()).(hPos := on))
    {
      spinHPos := on;
    }

    method SetSpinVNeg(on: bool)
      modifies this`spinVNeg
      ensures Snapshot() == old(Snapshot()).(flags := old(Flags()).(vNeg := on))
    {
      spinVNeg := on;
    }

    method SetSpinVPos(on: bool)
      modifies this`spinVPos
      ensures Snapshot() == old(Snapshot()).(flags := old(Flags()).(vPos := on))
    {
      spinVPos := on;
    }

    /** Advances both angles by `frameTime` milliseconds of spin in the net
        direction of their axis, wrapping each to within one turn. */
    method Update(gameTime: nat, frameTime: nat)
      modifies this`xAngle, this`yAngle
      ensures xAngle == Advance(old(xAngle), NetSpin(spinVNeg, spinVPos), frameTime)
      ensures yAngle == Advance(old(yAngle), NetSpin(spinHNeg, spinHPos), frameTime)
      ensures -TwoPi < xAngle < TwoPi && -TwoPi < yAngle < TwoPi
    {
      var spinH := 0;
      if spinHNeg {
        spinH := spinH - 1;
      }
      if spinHPos {
        spinH := spinH + 1;
      }
      var spinV := 0;
      if spinVNeg {
        spinV := spinV - 1;
      }
      if spinVPos {
        spinV := spinV + 1;
      }
      assert spinH == NetSpin(spinHNeg, spinHPos) && spinV == NetSpin(spinVNeg, spinVPos);
      xAngle := Advance(xAngle, spinV, frameTime);
      yAngle := Advance(yAngle, spinH, frameTime);
    }

    /** The frame count at the end of a draw. `ok` is false when
        `gameTime - fpsStartAt` underflows, where the source panics after
        counting the frame. */
    method Draw(gameTime: nat) returns (ok: bool)
      modifies this`frameRenderedCount, this`fpsStartAt
      ensures ok <==> old(fpsStartAt) <= gameTime
      ensures ok ==> Fps() == FpsTick(old(Fps()), gameTime)
      ensures !ok ==> Fps() == old(Fps()).(frames := old(frameRenderedCount) + 1)
    {
      frameRenderedCount := frameRenderedCount + 1;
      if gameTime < fpsStartAt {
        return false;
      }
      var duration := gameTime - fpsStartAt;
      if duration > FpsWindow {
        fpsStartAt := gameTime;
        frameRenderedCount := 0;
      }
      return true;
    }

    /** One iteration of the run loop. */
    method Step(b: Batch) returns (status: Status)
      modifies this
      ensures Outcome(status, Snapshot()) == Machine.Step(old(Snapshot()), b)
      ensures viewport == old(viewport)
    {
      ghost var s0 := Snapshot();
      var closed := DrainEvents(b.events);
      assert Machine.Step(s0, b) == AfterDrain(s0, closed, commands, b.gameTime, b.frameTime);
      if closed {
        return Quit;
      }
      // render when the queue is empty, otherwise dispatch one command
      if commands == [] {
        status := RenderFrame(b.gameTime, b.frameTime);
      } else {
        status := DispatchNewest();
      }
    }

    /** Drains one batch of polled events into the command queue, stopping
        at the first Close; `closed` says whether there was one. */
    method DrainEvents(events: seq<Event>) returns (closed: bool)
      modifies this`commands
      ensures closed <==> FirstClose(events) < |events|
      ensures commands == old(commands) + Enqueued(events[..FirstClose(events)])
    {
      var i := 0;
      while i < |events|
        invariant 0 <= i <= |events|
        invariant forall j :: 0 <= j < i ==> !events[j].Close?
        invariant commands == old(commands) + Enqueued(events[..i])
      {
        match events[i] {
          case Close =>
            assert FirstClose(events) == i;
            return true;
          case KeyEvent(key, action) =>
            if action != Repeat {
              commands := commands + [Command(key, action == Press)];
            }
          case OtherEvent =>
        }
        assert events[..i + 1][..i] == events[..i];
        i := i + 1;
      }
      assert FirstClose(events) == |events|;
      return false;
    }

    /** A render tick: `update`, then `draw`; `Aborted` when the draw underflows. */
    method RenderFrame(gameTime: nat, frameTime: nat) returns (status: Status)
      requires commands == []
      modifies this`xAngle, this`yAngle, this`frameRenderedCount, this`fpsStartAt
      ensures Outcome(status, Snapshot()) == RenderTick(old(Snapshot()), gameTime, frameTime)
    {
      Update(gameTime, frameTime);
      var ok := Draw(gameTime);
      status := if ok then Running else Aborted;
    }

    /** Pops the most recently queued command and dispatches it. */
    method DispatchNewest() returns (status: Status)
      requires commands != []
      modifies this`commands, this`spinVNeg, this`spinVPos
      ensures var cs := old(commands);
        Outcome(status, Snapshot()) ==
          match Dispatch(cs[|cs| - 1], old(Flags()))
          case Exit => Outcome(Quit, old(Snapshot()).(commands := cs[..|cs| - 1]))
          case Keep(f) => Outcome(Running, old(Snapshot()).(flags := f, commands := cs[..|cs| - 1]))
    {
      var command := commands[|commands| - 1];
      commands := commands[..|commands| - 1];
      match command.key
      case Escape =>
        status := Quit;
      case Up =>
        SetSpinVNeg(command.pressed);
        status := Running;
      case Down =>
        SetSpinVPos(command.pressed);
        status := Running;
      case _ =>
        status := Running;
    }

    /** Runs the loop over `batches` until an iteration stops it, starting
        with a new, empty command queue. */
    method Run(batches: seq<Batch>) returns (status: Status, iterations: nat)
      modifies this
      ensures RunResult(status, Snapshot(), iterations) == Machine.Run(old(Snapshot()).(commands := []), batches)
      ensures viewport == old(viewport)
    {
      commands := [];
      status, iterations := Running, 0;
      while iterations < |batches| && status == Running
        invariant iterations <= |batches|
        invariant viewport == old(viewport)
        invariant status == Running ==>
          Machine.Run(old(Snapshot()).(commands := []), batches) ==
            var r := Machine.Run(Snapshot(), batches[iterations..]); r.(iterations := r.iterations + iterations)
        invariant status != Running ==>
          Machine.Run(old(Snapshot()).(commands := []), batches) == RunResult(status, Snapshot(), iterations)
        decreases |batches| - iterations
      {
        status := Step(batches[iterations]);
        assert batches[iterations..][1..] == batches[iterations + 1..];
        iterations := iterations + 1;
      }
    }
  }
}
