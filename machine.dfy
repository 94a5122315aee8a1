/** One iteration of the renderer's run loop, and a run of several, as
    functions on the renderer's observable state. `Gfx.Renderer` carries
    out the same iteration imperatively and is proved against `Step` and
    `Run`.

    Each iteration drains the polled events (a Close leaves at once,
    repeats are dropped, presses and releases are queued), then either
    renders one frame, when no command is queued, or pops the most
    recently queued command and dispatches it. */
module Machine {
  import opened Spin
  import opened Fps
  import opened Input

  /** Why the loop stopped: it did not (`Running`), it was told to (`Quit`),
      or a draw's `u128` subtraction underflowed (`Aborted`). */
  datatype Status = Running | Quit | Aborted

  /** The renderer's state as the run loop sees it. Angles are in half-turns. */
  datatype State = State(flags: SpinFlags, xAngle: real, yAngle: real, fps: FpsCounter, commands: seq<Command>)

  /** What one iteration polls and reads from the clock: the events, the
      milliseconds since the loop started and since the previous render. */
  datatype Batch = Batch(events: seq<Event>, gameTime: nat, frameTime: nat)

  datatype Outcome = Outcome(status: Status, state: State)

  datatype RunResult = RunResult(status: Status, state: State, iterations: nat)

  const Initial := State(NoSpin, 0.0, 0.0, InitialCounter, [])

  /** Both angles lie strictly within one turn of zero. */
  predicate AnglesWrapped(s: State) {
    -TwoPi < s.xAngle < TwoPi && -TwoPi < s.yAngle < TwoPi
  }

  /** A render tick: `update` (vertical spin turns about x, horizontal about y)
      followed by the frame count of `draw`. */
  function RenderTick(s: State, gameTime: nat, frameTime: nat): (r: Outcome)
    requires s.commands == []
    ensures r.status != Quit
    ensures r.state.commands == [] && r.state.flags == s.flags
    ensures AnglesWrapped(r.state)
    ensures r.status == Running <==> s.fps.startAt <= gameTime
  {
    var updated := s.(xAngle := Advance(s.xAngle, NetSpin(s.flags.vNeg, s.flags.vPos), frameTime),
                      yAngle := Advance(s.yAngle, NetSpin(s.flags.hNeg, s.flags.hPos), frameTime));
    if s.fps.startAt <= gameTime then Outcome(Running, updated.(fps := FpsTick(s.fps, gameTime)))
    else Outcome(Aborted, updated.(fps := s.fps.(frames := s.fps.frames + 1)))
  }

  /** One iteration of the run loop: drain the batch, then act on what it left. */
  function Step(s: State, b: Batch): (r: Outcome)
    // a Close quits at once, with the commands drained before it and nothing else changed
    ensures var k := FirstClose(b.events);
      k < |b.events| ==> r == Outcome(Quit, s.(commands := s.commands + Enqueued(b.events[..k])))
    // with no Close and nothing queued, a frame is rendered
    ensures var k := FirstClose(b.events);
      k == |b.events| && s.commands + Enqueued(b.events) == [] ==>
        r == RenderTick(s, b.gameTime, b.frameTime)
    // with no Close and commands queued, the newest is popped and dispatched
    ensures var k := FirstClose(b.events); var pending := s.commands + Enqueued(b.events);
      k == |b.events| && pending != [] ==>
        r.state == s.(flags := r.state.flags, commands := pending[..|pending| - 1]) &&
        r.status != Aborted && (r.status == Quit <==> pending[|pending| - 1].key == Escape) &&
        (r.status == Running ==> Dispatch(pending[|pending| - 1], s.flags) == Keep(r.state.flags)) &&
        (r.status == Quit ==> r.state.flags == s.flags)
  {
    assert b.events[..|b.events|] == b.events;
    var k := FirstClose(b.events);
    AfterDrain(s, k < |b.events|, s.commands + Enqueued(b.events[..k]), b.gameTime, b.frameTime)
  }

  /** The rest of an iteration once the events are drained: leave on a
      Close, render when nothing is queued, otherwise pop and dispatch the
      newest command. */
  function AfterDrain(s: State, closed: bool, pending: seq<Command>, gameTime: nat, frameTime: nat): (r: Outcome)
    ensures closed ==> r == Outcome(Quit, s.(commands := pending))
    ensures !closed && pending != [] ==>
      r.state == s.(flags := r.state.flags, commands := pending[..|pending| - 1]) &&
      r.status != Aborted && (r.status == Quit ==> r.state.flags == s.flags) &&
      (r.status == Quit <==> pending[|pending| - 1].key == Escape) &&
      (r.status == Running ==> Dispatch(pending[|pending| - 1], s.flags) == Keep(r.state.flags))
  {
    if closed then Outcome(Quit, s.(commands := pending))
    else if pending == [] then RenderTick(s.(commands := []), gameTime, frameTime)
    else
      var rest := pending[..|pending| - 1];
      match Dispatch(pending[|pending| - 1], s.flags)
      case Exit => Outcome(Quit, s.(commands := rest))
      case Keep(f) => Outcome(Running, s.(flags := f, commands := rest))
  }

  /** Iterations of the run loop over `batches`, until one stops it. */
  function Run(s: State, batches: seq<Batch>): (r: RunResult)
    ensures r.iterations <= |batches|
    ensures r.status == Running ==> r.iterations == |batches|
    decreases |batches|
  {
    if batches == [] then RunResult(Running, s, 0)
    else
      var o := Step(s, batches[0]);
      if o.status != Running then RunResult(o.status, o.state, 1)
      else
        var rest := Run(o.state, batches[1..]);
        rest.(iterations := rest.iterations + 1)
  }

  /** A Close event ends the loop at once, even with commands still queued,
      and whatever follows it in the batch is never looked at. */
  lemma CloseEndsLoop(s: State, b: Batch, i: nat, later: seq<Event>)
    requires i < |b.events| && b.events[i].Close?
    ensures Step(s, b).status == Quit
    ensures Step(s, b).state.flags == s.flags && Step(s, b).state.fps == s.fps
    ensures Step(s, b.(events := b.events[..i + 1] + later)) == Step(s, b)
  {
    var k := FirstClose(b.events);
    assert k <= i;
    var e := b.events[..i + 1] + later;
    assert e[..k] == b.events[..k];
    assert e[k] == b.events[k];
    assert FirstClose(e) == k;
  }

  /** A repeat event anywhere in a batch has no effect on the iteration. */
  lemma RepeatHasNoEffect(s: State, b: Batch, i: nat, key: Key)
    requires i <= |b.events|
    ensures Step(s, b.(events := b.events[..i] + [KeyEvent(key, Repeat)] + b.events[i..])) == Step(s, b)
  {
    var e := b.events;
    var e' := e[..i] + [KeyEvent(key, Repeat)] + e[i..];
    FirstCloseAfterInsert(e, i, KeyEvent(key, Repeat), e');
    var k, k' := FirstClose(e), FirstClose(e');
    if k < i {
      assert e'[..k'] == e[..k];
    } else {
      assert e'[..k'] == e[..i] + [KeyEvent(key, Repeat)] + e[i..k];
      assert e[..k] == e[..i] + e[i..k];
      RepeatIgnored(e[..i], e[i..k], key);
    }
    SameDrainSameStep(s, b, b.(events := e'));
  }

  /** Two batches with the same clock readings whose drains queue the same
      commands and agree on whether a Close was seen lead to the same iteration. */
  lemma SameDrainSameStep(s: State, b: Batch, b': Batch)
    requires b.gameTime == b'.gameTime && b.frameTime == b'.frameTime
    requires (FirstClose(b.events) < |b.events|) == (FirstClose(b'.events) < |b'.events|)
    requires Enqueued(b.events[..FirstClose(b.events)]) == Enqueued(b'.events[..FirstClose(b'.events)])
    ensures Step(s, b) == Step(s, b')
  {
  }

  /** `FirstClose` is the only index with no Close before it and a Close (or the end) at it. */
  lemma FirstCloseUnique(e: seq<Event>, k: nat)
    requires k <= |e|
    requires forall j :: 0 <= j < k ==> !e[j].Close?
    requires k < |e| ==> e[k].Close?
    ensures FirstClose(e) == k
  {
  }

  /** Inserting an event that is not a Close moves the first Close only if it was at or after the insertion. */
  lemma FirstCloseAfterInsert(e: seq<Event>, i: nat, x: Event, e': seq<Event>)
    requires i <= |e| && !x.Close?
    requires e' == e[..i] + [x] + e[i..]
    ensures FirstClose(e') == if FirstClose(e) < i then FirstClose(e) else FirstClose(e) + 1
  {
    var k := FirstClose(e);
    if k < i {
      InsertAfterClose(e, i, x, k);
      FirstCloseUnique(e', k);
    } else {
      InsertBeforeClose(e, i, x, k);
      FirstCloseUnique(e', k + 1);
    }
  }

  /** An insertion after index `k` leaves the events up to `k` in place. */
  lemma InsertAfterClose(e: seq<Event>, i: nat, x: Event, k: nat)
    requires k < i <= |e|
    requires forall j :: 0 <= j < k ==> !e[j].Close?
    ensures var e' := e[..i] + [x] + e[i..];
      k < |e'| && e'[k] == e[k] && forall j :: 0 <= j < k ==> !e'[j].Close?
  {
    var e' := e[..i] + [x] + e[i..];
    forall j | 0 <= j <= k ensures e'[j] == e[j] {
      assert e'[j] == e[..i][j];
    }
  }

  /** An insertion of a non-Close at or before index `k` moves the events from `k` on by one. */
  lemma InsertBeforeClose(e: seq<Event>, i: nat, x: Event, k: nat)
    requires i <= k <= |e| && !x.Close?
    requires forall j :: 0 <= j < k ==> !e[j].Close?
    ensures var e' := e[..i] + [x] + e[i..];
      |e'| == |e| + 1 && (k < |e| ==> e'[k + 1] == e[k]) &&
      forall j :: 0 <= j < k + 1 ==> !e'[j].Close?
  {
    var e' := e[..i] + [x] + e[i..];
    forall j | i < j <= |e| ensures e'[j] == e[j - 1] {
      assert e'[j] == e[i..][j - i - 1];
    }
    forall j | 0 <= j < i ensures e'[j] == e[j] {
      assert e'[j] == e[..i][j];
    }
  }

  /** A frame is rendered only when no command is queued; otherwise exactly
      one command is removed, the most recently queued one, and nothing
      but the flags and the queue changes. */
  lemma RenderOnlyWhenIdle(s: State, b: Batch)
    requires forall i :: 0 <= i < |b.events| ==> !b.events[i].Close?
    ensures var pending := s.commands + Enqueued(b.events);
      var r := Step(s, b);
      (pending == [] ==> r == RenderTick(s, b.gameTime, b.frameTime)) &&
      (pending != [] ==>
        r.state.commands == pending[..|pending| - 1] &&
        r.state.xAngle == s.xAngle && r.state.yAngle == s.yAngle && r.state.fps == s.fps &&
        (r.status == Quit <==> pending[|pending| - 1].key == Escape) &&
        (r.status == Running ==> Dispatch(pending[|pending| - 1], s.flags) == Keep(r.state.flags)))
  {
    assert FirstClose(b.events) == |b.events|;
    assert b.events[..|b.events|] == b.events;
  }

  /** The value of `key`'s flag once every command in `cs` has been
      dispatched newest-first: the OLDEST command for that key decides. */
  function OldestCommandFor(cs: seq<Command>, key: Key, current: bool): bool
  {
    if cs == [] then current
    else if cs[0].key == key then cs[0].pressed
    else OldestCommandFor(cs[1..], key, current)
  }

  lemma {:induction false} OldestCommandForSnoc(cs: seq<Command>, c: Command, key: Key, current: bool)
    ensures OldestCommandFor(cs + [c], key, current) ==
            OldestCommandFor(cs, key, if c.key == key then c.pressed else current)
    decreases |cs|
  {
    if cs != [] {
      assert (cs + [c])[1..] == cs[1..] + [c];
      OldestCommandForSnoc(cs[1..], c, key, current);
    } else {
      assert [c][1..] == [];
    }
  }

  /** Iterations without events work through the queue newest-first: after
      one iteration per queued command the queue is empty and each vertical
      flag holds the value of the OLDEST command for its key. */
  lemma {:induction false} QueueDrainsNewestFirst(s: State, batches: seq<Batch>)
    requires |batches| == |s.commands|
    requires forall i :: 0 <= i < |batches| ==> batches[i].events == []
    requires forall i :: 0 <= i < |s.commands| ==> s.commands[i].key != Escape
    ensures Run(s, batches) == RunResult(Running,
      s.(flags := s.flags.(vNeg := OldestCommandFor(s.commands, Up, s.flags.vNeg),
                           vPos := OldestCommandFor(s.commands, Down, s.flags.vPos)),
         commands := []),
      |batches|)
    decreases |batches|
  {
    if batches != [] {
      var cs := s.commands;
      var last := cs[|cs| - 1];
      var o := Step(s, batches[0]);
      assert batches[0].events[..0] == [];
      assert cs + [] == cs;
      assert o.status == Running && o.state.commands == cs[..|cs| - 1];
      QueueDrainsNewestFirst(o.state, batches[1..]);
      assert cs == cs[..|cs| - 1] + [last];
      OldestCommandForSnoc(cs[..|cs| - 1], last, Up, s.flags.vNeg);
      OldestCommandForSnoc(cs[..|cs| - 1], last, Down, s.flags.vPos);
    }
  }

  /** The consequence of the newest-first order: when a press and a release
      of Up (or Down) arrive in one batch, the two iterations that follow
      leave the flag at the PRESS value, as if the key were still held. */
  lemma PressAndReleaseInOneBatch(s: State, key: Key, b0: Batch, b1: Batch)
    requires key == Up || key == Down
    requires s.commands == []
    requires b0.events == [KeyEvent(key, Press), KeyEvent(key, Release)]
    requires b1.events == []
    ensures var r := Run(s, [b0, b1]);
      r.status == Running && r.state.commands == [] &&
      (if key == Up then r.state.flags.vNeg else r.state.flags.vPos)
  {
    var o1 := Step(s, b0);
    ReleaseHandledFirst(s, key, b0);
    var o2 := Step(o1.state, b1);
    PressHandledLast(o1.state, key, b1);
    assert [b0, b1][1..] == [b1];
    assert [b1][1..] == [];
    assert Run(o1.state, [b1]) == RunResult(Running, o2.state, 1);
  }

  /** The first of those iterations dispatches the release, queued last. */
  lemma ReleaseHandledFirst(s: State, key: Key, b: Batch)
    requires key == Up || key == Down
    requires s.commands == []
    requires b.events == [KeyEvent(key, Press), KeyEvent(key, Release)]
    ensures Step(s, b).status == Running && Step(s, b).state.commands == [Command(key, true)]
  {
    var cs := [Command(key, true), Command(key, false)];
    assert Enqueued(b.events) == cs by {
      assert b.events[..1] == [KeyEvent(key, Press)];
      assert b.events[..1][..0] == [];
    }
    assert FirstClose(b.events) == 2 by {
      assert b.events[1..][1..] == [];
    }
    assert b.events[..2] == b.events;
    assert s.commands + cs == cs;
    assert cs[..1] == [Command(key, true)];
  }

  /** The second dispatches the press, and so sets the flag. */
  lemma PressHandledLast(s: State, key: Key, b: Batch)
    requires key == Up || key == Down
    requires s.commands == [Command(key, true)]
    requires b.events == []
    ensures Step(s, b).status == Running && Step(s, b).state.commands == []
    ensures if key == Up then Step(s, b).state.flags.vNeg else Step(s, b).state.flags.vPos
  {
    assert Enqueued(b.events) == [];
    assert FirstClose(b.events) == 0;
  }

  /** The angles stay strictly within one turn of zero across any run. */
  lemma {:induction false} RunKeepsAnglesWrapped(s: State, batches: seq<Batch>)
    requires AnglesWrapped(s)
    ensures AnglesWrapped(Run(s, batches).state)
    decreases |batches|
  {
    if batches != [] {
      var o := Step(s, batches[0]);
      assert AnglesWrapped(o.state);
      if o.status == Running {
        RunKeepsAnglesWrapped(o.state, batches[1..]);
      }
    }
  }

  /** With a clock that never goes backwards and an FPS window that started
      no later than the first iteration, no draw underflows: the loop is
      never aborted. */
  lemma {:induction false} MonotoneClockNeverAborts(s: State, batches: seq<Batch>)
    requires forall i, j :: 0 <= i < j < |batches| ==> batches[i].gameTime <= batches[j].gameTime
    requires forall i :: 0 <= i < |batches| ==> s.fps.startAt <= batches[i].gameTime
    ensures Run(s, batches).status != Aborted
    decreases |batches|
  {
    if batches != [] {
      var o := Step(s, batches[0]);
      assert o.status != Aborted;
      assert o.state.fps.startAt == s.fps.startAt || o.state.fps.startAt == batches[0].gameTime;
      if o.status == Running {
        MonotoneClockNeverAborts(o.state, batches[1..]);
      }
    }
  }
}
