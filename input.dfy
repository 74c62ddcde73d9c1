// Keyboard state to commands (InputHandler.cpp). Polling the keyboard is
// replaced by the set of keys held during the frame.

module Inputs {
  import opened Wrappers

  datatype Key = Escape | Enter | W | A | S | D | Up | Left | Down | Right | Space | LShift

  /** The keys held down when the frame polls the keyboard. */
  type KeyState = set<Key>

  datatype InputMode = WASD | ARROWS

  /** The concrete command classes of Command.h. */
  datatype Command = Pause | MoveRight | MoveLeft | MoveUp | MoveDown | Attack | Shout | ToggleDebugBounds

  /** `InputHandler::handleInput`: the pause command while Escape is held, otherwise none. */
  function GlobalCommand(keys: KeyState): (c: Option<Command>)
    ensures c.Some? <==> Escape in keys
    ensures c.Some? ==> c.value == Pause
  {
    if Escape in keys then Some(Pause) else None
  }

  function Toggled(m: InputMode): (t: InputMode)
    ensures t != m
  {
    if m == WASD then ARROWS else WASD
  }

  lemma ToggleTwice(m: InputMode)
    ensures Toggled(Toggled(m)) == m
  {
  }

  /** The key that triggers a player command in a mode, if any. */
  function Trigger(c: Command, mode: InputMode): Option<Key>
  {
    match c
    case MoveUp => Some(if mode == WASD then W else Up)
    case MoveLeft => Some(if mode == WASD then A else Left)
    case MoveDown => Some(if mode == WASD then S else Down)
    case MoveRight => Some(if mode == WASD then D else Right)
    case Attack => Some(Space)
    case Shout => Some(LShift)
    case _ => None
  }

  /** The order in which the player handler queues commands. */
  const QueueOrder: seq<Command> := [MoveUp, MoveLeft, MoveDown, MoveRight, Attack, Shout]

  /** `[c]` when the key that triggers `c` in `mode` is held, else nothing. */
  function Pick(c: Command, mode: InputMode, keys: KeyState): seq<Command>
  {
    if Trigger(c, mode).Some? && Trigger(c, mode).value in keys then [c] else []
  }

  /** The commands of `order` whose trigger key is held, kept in order. */
  function Triggered(order: seq<Command>, mode: InputMode, keys: KeyState): (q: seq<Command>)
    ensures |q| <= |order|
  {
    if order == [] then []
    else
      var c := order[0];
      Pick(c, mode, keys) + Triggered(order[1..], mode, keys)
  }

  /** What one call queues, given the held keys and the mode in force after the Enter check. */
  function CommandsFor(mode: InputMode, keys: KeyState): seq<Command>
  {
    Triggered(QueueOrder, mode, keys)
  }

  lemma {:induction false} TriggeredMembership(order: seq<Command>, mode: InputMode, keys: KeyState, c: Command)
    ensures c in Triggered(order, mode, keys) <==>
      c in order && Trigger(c, mode).Some? && Trigger(c, mode).value in keys
    decreases |order|
  {
    if order != [] {
      TriggeredMembership(order[1..], mode, keys, c);
      assert c in order <==> c == order[0] || c in order[1..];
    }
  }

  /** A command is queued iff its key in the current mode is held. */
  lemma CommandsForMembership(mode: InputMode, keys: KeyState, c: Command)
    ensures c in CommandsFor(mode, keys) <==> c in QueueOrder && Trigger(c, mode).value in keys
  {
    TriggeredMembership(QueueOrder, mode, keys, c);
  }

  /** The queue written out command by command. */
  lemma CommandsForExpanded(mode: InputMode, keys: KeyState)
    ensures CommandsFor(mode, keys) ==
      Pick(MoveUp, mode, keys) + (Pick(MoveLeft, mode, keys) + (Pick(MoveDown, mode, keys) +
      (Pick(MoveRight, mode, keys) + (Pick(Attack, mode, keys) + Pick(Shout, mode, keys)))))
  {
    var e: seq<Command> := [];
    assert Triggered([Shout], mode, keys) == Pick(Shout, mode, keys) + Triggered(e, mode, keys);
    var t1 := [Attack, Shout];
    assert t1[1..] == [Shout];
    var t2 := [MoveRight, Attack, Shout];
    assert t2[1..] == t1;
    var t3 := [MoveDown, MoveRight, Attack, Shout];
    assert t3[1..] == t2;
    var t4 := [MoveLeft, MoveDown, MoveRight, Attack, Shout];
    assert t4[1..] == t3;
    assert QueueOrder[1..] == t4;
    assert Triggered(t1, mode, keys) == Pick(Attack, mode, keys) + Pick(Shout, mode, keys);
    assert Triggered(t2, mode, keys) == Pick(MoveRight, mode, keys) + Triggered(t1, mode, keys);
    assert Triggered(t3, mode, keys) == Pick(MoveDown, mode, keys) + Triggered(t2, mode, keys);
    assert Triggered(t4, mode, keys) == Pick(MoveLeft, mode, keys) + Triggered(t3, mode, keys);
    assert CommandsFor(mode, keys) == Pick(MoveUp, mode, keys) + Triggered(t4, mode, keys);
  }

  /** Movement comes before Attack, and Attack before Shout. */
  lemma CommandsForOrder(mode: InputMode, keys: KeyState)
    requires Space in keys && LShift in keys
    ensures var q := CommandsFor(mode, keys);
      |q| >= 2 && q[|q| - 2] == Attack && q[|q| - 1] == Shout
  {
    CommandsForExpanded(mode, keys);
  }

  lemma {:induction false} TriggeredConcat(a: seq<Command>, b: seq<Command>, mode: InputMode, keys: KeyState)
    ensures Triggered(a + b, mode, keys) == Triggered(a, mode, keys) + Triggered(b, mode, keys)
    decreases |a|
  {
    if a != [] {
      assert (a + b)[1..] == a[1..] + b;
      TriggeredConcat(a[1..], b, mode, keys);
    } else {
      assert a + b == b;
    }
  }

  /** With no key held nothing is queued, in either mode. */
  lemma NoKeysNoCommands(mode: InputMode)
    ensures CommandsFor(mode, {}) == []
  {
  }

  /** The Enter debounce: (mode, togglePressed) before and after one poll. */
  datatype ToggleState = ToggleState(mode: InputMode, pressed: bool)

  function Debounce(st: ToggleState, enterDown: bool): (r: ToggleState)
    ensures r.pressed == enterDown
    ensures r.mode != st.mode <==> enterDown && !st.pressed
  {
    if enterDown then
      if !st.pressed then ToggleState(Toggled(st.mode), true) else st
    else ToggleState(st.mode, false)
  }

  /** The toggle state after polling n frames with Enter held throughout. */
  function HoldEnter(st: ToggleState, n: nat): ToggleState
  {
    if n == 0 then st else Debounce(HoldEnter(st, n - 1), true)
  }

  /** Holding Enter for any number of frames toggles the mode exactly once. */
  lemma {:induction false} HoldingEnterTogglesOnce(m: InputMode, n: nat)
    requires n >= 1
    ensures HoldEnter(ToggleState(m, false), n) == ToggleState(Toggled(m), true)
  {
    if n > 1 {
      HoldingEnterTogglesOnce(m, n - 1);
    }
  }

  /** The movement keys of `handleInput`, in the order it tests them. */
  method QueueMoves(m: InputMode, keys: KeyState) returns (q: seq<Command>)
    ensures q == Pick(MoveUp, m, keys) + Pick(MoveLeft, m, keys) + Pick(MoveDown, m, keys) + Pick(MoveRight, m, keys)
  {
    q := [];
    if m == WASD {
      if W in keys { q := q + [MoveUp]; }
      assert q == Pick(MoveUp, m, keys);
      if A in keys { q := q + [MoveLeft]; }
      assert q == Pick(MoveUp, m, keys) + Pick(MoveLeft, m, keys);
      if S in keys { q := q + [MoveDown]; }
      assert q == Pick(MoveUp, m, keys) + Pick(MoveLeft, m, keys) + Pick(MoveDown, m, keys);
      if D in keys { q := q + [MoveRight]; }
    } else {
      if Up in keys { q := q + [MoveUp]; }
      assert q == Pick(MoveUp, m, keys);
      if Left in keys { q := q + [MoveLeft]; }
      assert q == Pick(MoveUp, m, keys) + Pick(MoveLeft, m, keys);
      if Down in keys { q := q + [MoveDown]; }
      assert q == Pick(MoveUp, m, keys) + Pick(MoveLeft, m, keys) + Pick(MoveDown, m, keys);
      if Right in keys { q := q + [MoveRight]; }
    }
  }

  /** The queueing half of `handleInput`: movement keys of the mode, then Space, then LShift. */
  method QueueCommands(m: InputMode, keys: KeyState) returns (q: seq<Command>)
    ensures q == CommandsFor(m, keys)
  {
    q := QueueMoves(m, keys);
    ghost var moves := q;
    if Space in keys { q := q + [Attack]; }
    assert q == moves + Pick(Attack, m, keys);
    if LShift in keys { q := q + [Shout]; }
    assert q == moves + Pick(Attack, m, keys) + Pick(Shout, m, keys);
    CommandsForExpanded(m, keys);
    ghost var p1, p2, p3 := Pick(MoveUp, m, keys), Pick(MoveLeft, m, keys), Pick(MoveDown, m, keys);
    ghost var p4, p5, p6 := Pick(MoveRight, m, keys), Pick(Attack, m, keys), Pick(Shout, m, keys);
    Associative(p4, p5, p6);
    Associative(p3, p4, p5 + p6);
    Associative(p2, p3, p4 + (p5 + p6));
    Associative(p1, p2, p3 + (p4 + (p5 + p6)));
  }

  class PlayerInputHandler {
    var inputMode: InputMode
    var togglePressed: bool
    var commandQueue: seq<Command>

    constructor ()
      ensures inputMode == WASD && !togglePressed && commandQueue == []
    {
      inputMode := WASD;
      togglePressed := false;
      commandQueue := [];
    }

    method ToggleInputMode()
      modifies this
      ensures inputMode == Toggled(old(inputMode))
      ensures togglePressed == old(togglePressed) && commandQueue == old(commandQueue)
    {
      if inputMode == WASD {
        inputMode := ARROWS;
      } else {
        inputMode := WASD;
      }
    }

    /**
     * Clears the queue, applies the Enter debounce, then queues the held
     * commands of the (possibly just toggled) mode.
     */
    method HandleInput(keys: KeyState) returns (queue: seq<Command>)
      modifies this
      ensures ToggleState(inputMode, togglePressed) ==
        Debounce(ToggleState(old(inputMode), old(togglePressed)), Enter in keys)
      ensures queue == commandQueue == CommandsFor(inputMode, keys)
    {
      commandQueue := [];
      if Enter in keys {
        if !togglePressed {
          ToggleInputMode();
          togglePressed := true;
        }
      } else {
        togglePressed := false;
      }
      assert ToggleState(inputMode, togglePressed) ==
        Debounce(ToggleState(old(inputMode), old(togglePressed)), Enter in keys);
      var q := QueueCommands(inputMode, keys);
      commandQueue := q;
      queue := commandQueue;
    }
  }

  /** `PlayerInputComponent`: owns one player input handler. */
  class PlayerInputComponent {
    const handler: PlayerInputHandler

    constructor ()
      ensures fresh(handler)
      ensures handler.inputMode == WASD && !handler.togglePressed && handler.commandQueue == []
    {
      handler := new PlayerInputHandler();
    }
  }
}
