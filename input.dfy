/** Window events, the key commands the run loop queues from them, and
    the dispatch of one command. */
module Input {
  import opened Spin

  datatype Key = Escape | Up | Down | Left | Right | OtherKey(code: int)

  datatype Action = Press | Release | Repeat

  /** A polled window event; `OtherEvent` stands for every event the loop ignores. */
  datatype Event = Close | KeyEvent(key: Key, action: Action) | OtherEvent

  /** A queued command: the key and whether it was pressed (otherwise released). */
  datatype Command = Command(key: Key, pressed: bool)

  /** The command one event queues: none for a repeat, a close or a non-key event. */
  function CommandOf(e: Event): (r: seq<Command>)
    ensures |r| <= 1
    ensures r != [] <==> e.KeyEvent? && e.action != Repeat
    ensures r != [] ==> r[0] == Command(e.key, e.action == Press)
  {
    match e
    case KeyEvent(key, action) => if action == Repeat then [] else [Command(key, action == Press)]
    case _ => []
  }

  /** The commands queued, in order, while draining `events`. */
  function Enqueued(events: seq<Event>): (r: seq<Command>)
    ensures |r| <= |events|
    decreases |events|
  {
    if events == [] then []
    else Enqueued(events[..|events| - 1]) + CommandOf(events[|events| - 1])
  }

  /** Position of the first Close event, or |events| when there is none. */
  function FirstClose(events: seq<Event>): (k: nat)
    ensures k <= |events|
    ensures forall j :: 0 <= j < k ==> !events[j].Close?
    ensures k < |events| ==> events[k].Close?
    decreases |events|
  {
    if events == [] then 0
    else if events[0].Close? then 0
    else 1 + FirstClose(events[1..])
  }

  /** The result of dispatching one command: leave the loop, or carry on with these flags. */
  datatype Dispatched = Exit | Keep(flags: SpinFlags)

  /** Dispatch of one command popped from the queue. */
  function Dispatch(cmd: Command, f: SpinFlags): (r: Dispatched)
    // Escape leaves the loop whether it was pressed or released; nothing else does
    ensures r.Exit? <==> cmd.key == Escape
    // the horizontal flags are never set from a command
    ensures r.Keep? ==> r.flags.hNeg == f.hNeg && r.flags.hPos == f.hPos
    // Up drives the negative vertical flag, Down the positive one
    ensures r.Keep? ==> r.flags.vNeg == (if cmd.key == Up then cmd.pressed else f.vNeg)
    ensures r.Keep? ==> r.flags.vPos == (if cmd.key == Down then cmd.pressed else f.vPos)
  {
    match cmd.key
    case Escape => Exit
    case Up => Keep(f.(vNeg := cmd.pressed))
    case Down => Keep(f.(vPos := cmd.pressed))
    case _ => Keep(f)
  }

  /** Keys other than Escape, Up and Down (Left and Right among them) change nothing. */
  lemma OtherKeysIgnored(cmd: Command, f: SpinFlags)
    requires cmd.key != Escape && cmd.key != Up && cmd.key != Down
    ensures Dispatch(cmd, f) == Keep(f)
  {
  }

  /** Draining two batches one after the other queues both batches' commands in order. */
  lemma {:induction false} EnqueuedAppend(a: seq<Event>, b: seq<Event>)
    ensures Enqueued(a + b) == Enqueued(a) + Enqueued(b)
    decreases |b|
  {
    if b == [] {
      assert a + b == a;
    } else {
      var b' := b[..|b| - 1];
      assert (a + b)[..|a + b| - 1] == a + b';
      assert (a + b)[|a + b| - 1] == b[|b| - 1];
      EnqueuedAppend(a, b');
    }
  }

  /** A repeat event anywhere in a batch queues nothing: removing it changes nothing. */
  lemma {:induction false} RepeatIgnored(a: seq<Event>, b: seq<Event>, key: Key)
    ensures Enqueued(a + [KeyEvent(key, Repeat)] + b) == Enqueued(a + b)
  {
    var r := [KeyEvent(key, Repeat)];
    assert Enqueued(r) == [] by {
      assert r[..0] == [];
    }
    EnqueuedAppend(a, r);
    EnqueuedAppend(a + r, b);
    EnqueuedAppend(a, b);
  }

  /** Every queued command comes from a press or release in the batch, and
      every press or release queues one: a batch of repeats queues nothing. */
  lemma {:induction false} EnqueuedFromTransitions(events: seq<Event>)
    ensures forall c :: c in Enqueued(events) <==>
      exists j :: 0 <= j < |events| && events[j].KeyEvent? && events[j].action != Repeat &&
        c == Command(events[j].key, events[j].action == Press)
    decreases |events|
  {
    if events != [] {
      var init := events[..|events| - 1];
      EnqueuedFromTransitions(init);
      forall c
        ensures c in Enqueued(events) <==>
          exists j :: 0 <= j < |events| && events[j].KeyEvent? && events[j].action != Repeat &&
            c == Command(events[j].key, events[j].action == Press)
      {
        if c in Enqueued(init) {
          var j :| 0 <= j < |init| && init[j].KeyEvent? && init[j].action != Repeat &&
            c == Command(init[j].key, init[j].action == Press);
          assert events[j] == init[j];
        }
        if exists j :: 0 <= j < |events| && events[j].KeyEvent? && events[j].action != Repeat &&
            c == Command(events[j].key, events[j].action == Press)
        {
          var j :| 0 <= j < |events| && events[j].KeyEvent? && events[j].action != Repeat &&
            c == Command(events[j].key, events[j].action == Press);
          if j < |init| {
            assert init[j] == events[j];
          }
        }
      }
    }
  }
}
