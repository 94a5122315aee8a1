# Spinning-cube renderer: verified model of the frame loop

This project models the core of a small real-time 3D demo, `src/gfx.rs`. The
demo opens a window and uploads an indexed cube mesh. It then runs a
single-threaded loop. Every iteration first drains the polled window events
into a queue of key commands, leaving at once on a Close. It then either pops
and dispatches the newest queued command or, when the queue is empty, renders
a frame. Rendering a frame advances two rotation angles by the elapsed time
and counts frames for an FPS report.

The model is written in Dafny and split into these modules:

- `Mesh` (`mesh.dfy`) holds the constant vertex and index tables of the cube.
  It proves that they describe the eight corners and six faces of the cube
  [-1, 1]^3.
- `Projection` (`projection.dfy`) computes the aspect-correct virtual
  viewport that the projection matrix is built from. The reference viewport
  is 8 by 6 (4:3).
- `Spin` (`spin.dfy`) gives the net spin of an axis from its two intent
  flags, and advances and wraps an angle. `WrapAngle` is the `f32` `%`
  operator: a truncated remainder, so it keeps the sign of the angle.
- `Fps` (`fps.dfy`) is the frame counter that restarts after more than 1000
  ms.
- `Input` (`input.dfy`) covers window events, the commands queued from them
  and the dispatch of one command.
- `Machine` (`machine.dfy`) specifies one loop iteration (`Step`) and a run
  of iterations (`Run`) as functions on the renderer's observable state.
- `Gfx` (`gfx.dfy`) is the `Renderer` class. Its fields are the spin flags,
  the angles, the viewport, the FPS counter and the command queue. Its
  setters, `Update`, `Draw` and the loop (`Step`, `Run`) update those fields
  in place and are proved against the `Machine` functions.

Units and time:

- Angles are exact reals measured in half-turns. The spin velocity of 180
  degrees per second is 1, and the source's `two_pi` is 2.
- Times are whole milliseconds. Each loop iteration receives its polled
  events and its two clock readings (`game_time` and `frame_time`) as a
  `Batch` value.

Behaviour of the code that the model keeps and that a reader may not expect:

- Angles wrap to (-2π, 2π), not [0, 2π). The wrap is a sign-preserving
  remainder, so a negative angle stays negative (`Spin.WrapAngle`).
- The loop reacts only to Escape, Up and Down. Left and Right are queued
  like any other key and then ignored, so the horizontal flags can change
  only through their setters (`Input.Dispatch`, `Input.OtherKeysIgnored`).
- Escape ends the loop when it is released as well as when it is pressed,
  because the command is matched as `(Key::Escape, _)`.
- Resize events are ignored by the loop. `refresh_viewport_size` exists but
  the loop never calls it.
- Commands are handled one per iteration, most recent first (`Vec::pop`).
  If a key is pressed and released within one poll, the release is handled
  first and the press last, so the flag stays set
  (`Machine.PressAndReleaseInOneBatch`, `Machine.QueueDrainsNewestFirst`).

## Model

| member | source | states |
|---|---|---|
| Mesh.CornersOfCube | src/gfx.rs:64-73 | the vertex table has 8 entries; every coordinate is 1 or -1 and no two positions coincide, so they are the eight corners of the cube |
| Mesh.IndicesInRange | src/gfx.rs:64-82 | the index table has 36 entries, each of which addresses one of the 8 vertices |
| Mesh.TrianglesNondegenerate | src/gfx.rs:75-82 | none of the 12 triangles repeats a vertex |
| Mesh.GroupsAreFaceQuads | src/gfx.rs:64-82 | each group of six indices is a quad `[a, b, c, c, d, a]` over four distinct vertices, all lying on one face of the cube |
| Mesh.GroupsCoverAllFaces | src/gfx.rs:64-82 | no two groups lie on the same face, so the six groups cover all six faces |
| Projection.VirtualViewport | src/gfx.rs:233-249 | the viewport has the window's aspect ratio and fits in 8 by 6 with one side at full size; a wider-than-4:3 window gets width 8, any other gets height 6 |
| Projection.BoundaryWindow | src/gfx.rs:236-249 | an exactly 4:3 window (800 by 600) takes the height branch and gets the full 8 by 6 viewport |
| Projection.WideWindow | src/gfx.rs:242-245 | a 16:9 window (1280 by 720) gets width 8 and height 4.5 |
| Projection.ScaleInvariant | src/gfx.rs:236-249 | scaling both window sides by the same factor leaves the viewport unchanged |
| Spin.NetSpin | src/gfx.rs:279-295 | the net spin of an axis is -1, 0 or 1; it is 0 exactly when both flags agree, and otherwise takes the sign of the flag that is set |
| Spin.WrapAngle | src/gfx.rs:297-303 | the remainder by two_pi lies strictly within one turn, keeps the sign of the angle, differs from it by whole turns, and leaves an angle already within one turn unchanged |
| Spin.Advance | src/gfx.rs:299-303 | the advanced angle is within one turn and differs by whole turns from the old angle plus velocity × spin × elapsed seconds |
| Spin.AdvanceZeroTime | src/gfx.rs:299-303 | an elapsed time of 0 leaves a wrapped angle unchanged |
| Spin.CancellingFlagsHold | src/gfx.rs:279-303 | when both flags of an axis are set, or both clear, its angle does not move |
| Spin.ForwardSpinStaysNonNegative | src/gfx.rs:299-303 | a non-negative angle spun forward stays in [0, two_pi) |
| Fps.FpsTick | src/gfx.rs:360-368 | after a draw the counter restarts at the current time with 0 frames exactly when more than 1000 ms have passed; otherwise the frame is counted; the window start never passes the current time |
| Fps.ExactWindowKeepsCounting | src/gfx.rs:362-363 | a duration of exactly 1000 ms does not restart the window |
| Fps.FpsRun | src/gfx.rs:360-368 | after a sequence of draws without underflow, the window start is at or before the last draw |
| Fps.MonotoneClockNeverUnderflows | src/gfx.rs:362 | with a clock that never goes backwards, no draw's `game_time - fps_start_at` underflows |
| Fps.CountsEveryDrawInWindow | src/gfx.rs:360-363 | draws that all fall within the current window are each counted once |
| Input.CommandOf | src/gfx.rs:171-177 | an event queues a command exactly when it is a key press or release, and the command carries the key and whether it was pressed |
| Input.Enqueued | src/gfx.rs:169-179 | draining events queues at most one command per event |
| Input.FirstClose | src/gfx.rs:170-172 | the index of the first Close event, with no Close before it (or the length when there is none) |
| Input.Dispatch | src/gfx.rs:192-205 | Escape, pressed or released, exits and nothing else does; Up sets the negative vertical flag and Down the positive one to "pressed"; the horizontal flags are never touched |
| Input.OtherKeysIgnored | src/gfx.rs:205 | any key other than Escape, Up and Down leaves the flags unchanged |
| Input.EnqueuedAppend | src/gfx.rs:169-179 | draining two event lists one after the other queues their commands in order |
| Input.RepeatIgnored | src/gfx.rs:174 | removing a repeat event from anywhere in a batch leaves the queued commands unchanged |
| Input.EnqueuedFromTransitions | src/gfx.rs:171-177 | a command is queued if and only if some press or release event in the batch carries it |
| Machine.RenderTick | src/gfx.rs:182-189 | a render tick keeps the flags and the empty queue, leaves both angles within one turn, and succeeds exactly when the FPS subtraction does not underflow |
| Machine.Step | src/gfx.rs:167-206 | one iteration: a Close in the batch quits with the commands drained before it and nothing else changed; otherwise an empty queue renders (`RenderTick`), and a non-empty one loses its newest command, quits exactly on Escape, keeps angles and counter, and takes that command's dispatch as its flags |
| Machine.AfterDrain | src/gfx.rs:172-205 | after draining, a Close quits with the queue as drained; otherwise a non-empty queue loses its newest command, the loop quits exactly when that command is Escape, angles and counter are kept, and the new flags are that command's dispatch |
| Machine.Run | src/gfx.rs:162-208 | a run takes at most one iteration per batch, and all of them when it never stops |
| Machine.CloseEndsLoop | src/gfx.rs:170-172 | a Close quits the loop even with commands queued, keeps the flags and counter, and nothing after it in the batch matters |
| Machine.RepeatHasNoEffect | src/gfx.rs:174 | inserting a repeat event anywhere in a batch does not change the iteration |
| Machine.RenderOnlyWhenIdle | src/gfx.rs:181-205 | a frame is rendered only when the queue is empty; otherwise exactly the newest command is removed, and angles and counter are unchanged |
| Machine.QueueDrainsNewestFirst | src/gfx.rs:190-205 | with no new events, one iteration per queued command empties the queue and leaves each vertical flag at its oldest command's value |
| Machine.PressAndReleaseInOneBatch | src/gfx.rs:169-205 | a press and a release of Up or Down polled together leave the flag set after the two iterations that handle them |
| Machine.RunKeepsAnglesWrapped | src/gfx.rs:297-303 | both angles stay strictly within one turn over any run |
| Machine.MonotoneClockNeverAborts | src/gfx.rs:182-189 | with a clock that never goes backwards and starts no earlier than the FPS window, a run never aborts |
| Gfx.Renderer.constructor | src/gfx.rs:106-140 | a new renderer has no spin, zero angles, a zero frame count started at 0, an empty queue, and the viewport of its window |
| Gfx.Renderer.RefreshViewport | src/gfx.rs:210-214 | recomputes the viewport for the window size and changes nothing else |
| Gfx.Renderer.SetSpinHNeg | src/gfx.rs:216-218 | sets the negative horizontal flag and changes nothing else |
| Gfx.Renderer.SetSpinHPos | src/gfx.rs:220-222 | sets the positive horizontal flag and changes nothing else |
| Gfx.Renderer.SetSpinVNeg | src/gfx.rs:224-226 | sets the negative vertical flag and changes nothing else |
| Gfx.Renderer.SetSpinVPos | src/gfx.rs:228-230 | sets the positive vertical flag and changes nothing else |
| Gfx.Renderer.Update | src/gfx.rs:278-303 | each angle advances by its axis's net spin (vertical about x, horizontal about y) and ends strictly within one turn |
| Gfx.Renderer.Draw | src/gfx.rs:360-368 | the draw succeeds exactly when the window did not start after `game_time`, and then the counter is `FpsTick` of the old one; otherwise only the frame is counted |
| Gfx.Renderer.Step | src/gfx.rs:166-206 | one loop iteration leaves the renderer in the state `Machine.Step` gives and returns its status; the viewport is unchanged |
| Gfx.Renderer.DrainEvents | src/gfx.rs:168-179 | the queue grows by the commands of the events before the first Close, and `closed` says whether there was one |
| Gfx.Renderer.RenderFrame | src/gfx.rs:182-189 | update then draw gives the state and status of `Machine.RenderTick` |
| Gfx.Renderer.DispatchNewest | src/gfx.rs:190-205 | pops the newest command and applies its dispatch to the flags, or quits on Escape |
| Gfx.Renderer.Run | src/gfx.rs:162-208 | running the loop over a list of batches starts from an empty command queue and ends in the state, status and iteration count of `Machine.Run` from the old state with that empty queue |

## Left out

- Window creation, the GPU context, shader compilation and mesh upload (`init_mesh`, `init_shaders`) are not modelled. These are calls into graphics libraries; the mesh is modelled by its two tables.
- The rendering part of `draw` (`src/gfx.rs:323-357`) is not modelled. This includes the `panic!` on a failed render, which is a foreign-library outcome.
- The matrices are not modelled: the perspective projection built from the viewport, the view matrix that `update` rebuilds from the angles, and the world matrix, which is a constant identity. Their construction is floating-point linear algebra in `nalgebra_glm`; the model keeps the viewport and the angles that feed them.
- `f32` rounding is not modelled. Angles and viewport sizes are exact reals, and angles are measured in half-turns because π is not a rational number.
- The clock (`Instant`) and event polling are not modelled. The times and the polled events of each iteration are inputs.
- The FPS value printed by `println!`, and the other printed lines, are left out as output only.
- The endless loop is modelled as `Run` over a finite list of iterations; `Machine.Run` stops at the first iteration that quits or aborts.
- The command queue, a local `Vec` of `run`, is the class field `commands`. `Gfx.Renderer.Run` empties it on entry, as `run` creates a new `Vec`; only the helper methods `Step`, `DrainEvents` and `DispatchNewest` work on a queue left by an earlier call.
- Fps.FpsTick: the `u32` overflow of `frame_rendered_count` is not modelled (it needs over four billion frames in one window); the count is a `nat`.
- Gfx.Renderer.Draw: a `u128` underflow of `game_time - fps_start_at` is modelled as `ok == false` (`Aborted` in the loop), where the source panics. Release builds of the source would wrap instead.
- Projection.VirtualViewport: requires both window sides to be positive. The only window measured is the 1280 by 720 one that `Renderer::new` creates (`src/gfx.rs:107-118`), and `refresh_viewport_size` is never called; the `f32` infinities and NaN of a zero-sized window are not modelled.
- Mesh: the colour channel values are kept in the table but no property is stated about them, and neither is the winding order of the triangles.
