// The command objects (GameCommand.cpp) and the player input component
// (InputComponent.cpp): each command writes the player's velocity or
// flags, or the game's pause and debug-bounds flags.

module Commands {
  import opened Geometry
  import opened Components
  import opened Entities
  import opened Games
  import Inputs

  /** The speed the movement commands write on their axis. */
  const MoveSpeed: real := 150.0

  /** The player, as a set: empty when there is none. */
  function PlayerSet(g: Game): set<Entity>
    reads g`player
  {
    if g.player != null then {g.player} else {}
  }

  /** The velocity component of the player, when there is a player and it has one. */
  function PlayerVelocity(g: Game): set<VelocityComponent>
    reads g`player
  {
    if g.player != null && g.player.velocityComp != null then {g.player.velocityComp} else {}
  }

  /** `player->getVelocityComp()` behind the null check on the player. */
  function VelocityOf(g: Game): (v: VelocityComponent?)
    reads g`player
    ensures v != null <==> g.player != null && g.player.velocityComp != null
    ensures v != null ==> v == g.player.velocityComp
  {
    if g.player != null then g.player.velocityComp else null
  }

  /** The velocity after one command: a movement command overwrites one axis, any other command none. */
  function Steer(c: Inputs.Command, v: Vec2): Vec2
  {
    match c
    case MoveRight => Vec2(MoveSpeed, v.y)
    case MoveLeft => Vec2(-MoveSpeed, v.y)
    case MoveUp => Vec2(v.x, -MoveSpeed)
    case MoveDown => Vec2(v.x, MoveSpeed)
    case _ => v
  }

  /** The velocity after the commands of q, in order. */
  function SteerAll(q: seq<Inputs.Command>, v: Vec2): Vec2
    decreases |q|
  {
    if q == [] then v else Steer(q[|q| - 1], SteerAll(q[..|q| - 1], v))
  }

  predicate Horizontal(c: Inputs.Command)
  {
    c == Inputs.MoveRight || c == Inputs.MoveLeft
  }

  predicate Vertical(c: Inputs.Command)
  {
    c == Inputs.MoveUp || c == Inputs.MoveDown
  }

  /** The x speed a horizontal command writes, or the y speed a vertical one writes. */
  function AxisSpeed(c: Inputs.Command): real
  {
    if c == Inputs.MoveRight || c == Inputs.MoveDown then MoveSpeed else -MoveSpeed
  }

  /** Repeating a command changes nothing more. */
  lemma SteerIdempotent(c: Inputs.Command, v: Vec2)
    ensures Steer(c, Steer(c, v)) == Steer(c, v)
  {
  }

  /** A horizontal and a vertical command give the same velocity in either order. */
  lemma SteerAxesCommute(h: Inputs.Command, u: Inputs.Command, v: Vec2)
    requires Horizontal(h) && Vertical(u)
    ensures Steer(h, Steer(u, v)) == Steer(u, Steer(h, v)) == Vec2(AxisSpeed(h), AxisSpeed(u))
  {
  }

  /**
   * Each axis ends as the last command on that axis wrote it, or as it was
   * when no command in q is on that axis.
   */
  lemma {:induction false} LastCommandWins(q: seq<Inputs.Command>, v: Vec2)
    ensures (forall i :: 0 <= i < |q| ==> !Horizontal(q[i])) ==> SteerAll(q, v).x == v.x
    ensures (forall i :: 0 <= i < |q| ==> !Vertical(q[i])) ==> SteerAll(q, v).y == v.y
    ensures forall i :: 0 <= i < |q| && Horizontal(q[i]) && (forall j :: i < j < |q| ==> !Horizontal(q[j])) ==>
      SteerAll(q, v).x == AxisSpeed(q[i])
    ensures forall i :: 0 <= i < |q| && Vertical(q[i]) && (forall j :: i < j < |q| ==> !Vertical(q[j])) ==>
      SteerAll(q, v).y == AxisSpeed(q[i])
    decreases |q|
  {
    if q != [] {
      var p := q[..|q| - 1];
      LastCommandWins(p, v);
      assert forall i :: 0 <= i < |p| ==> p[i] == q[i];
    }
  }

  /** With A and D both held (WASD), Left is queued before Right, so the player moves right. */
  lemma LeftAndRightGoesRight(keys: Inputs.KeyState)
    requires Inputs.A in keys && Inputs.D in keys
    ensures SteerAll(Inputs.CommandsFor(Inputs.WASD, keys), Origin).x == MoveSpeed
  {
    var m := Inputs.WASD;
    var q := Inputs.CommandsFor(m, keys);
    Inputs.CommandsForExpanded(m, keys);
    var up, down := Inputs.Pick(Inputs.MoveUp, m, keys), Inputs.Pick(Inputs.MoveDown, m, keys);
    var tail := Inputs.Pick(Inputs.Attack, m, keys) + Inputs.Pick(Inputs.Shout, m, keys);
    assert q == up + ([Inputs.MoveLeft] + (down + ([Inputs.MoveRight] + tail)));
    var i := |up| + 1 + |down|;
    assert q[i] == Inputs.MoveRight;
    assert q[i + 1..] == tail;
    forall j | i < j < |q|
      ensures !Horizontal(q[j])
    {
      assert q[j] == tail[j - i - 1];
    }
    LastCommandWins(q, Origin);
  }

  /** With W and S both held (WASD), Up is queued before Down, so the player moves down. */
  lemma UpAndDownGoesDown(keys: Inputs.KeyState)
    requires Inputs.W in keys && Inputs.S in keys
    ensures SteerAll(Inputs.CommandsFor(Inputs.WASD, keys), Origin).y == MoveSpeed
  {
    var m := Inputs.WASD;
    var q := Inputs.CommandsFor(m, keys);
    Inputs.CommandsForExpanded(m, keys);
    var left, right := Inputs.Pick(Inputs.MoveLeft, m, keys), Inputs.Pick(Inputs.MoveRight, m, keys);
    var tail := right + (Inputs.Pick(Inputs.Attack, m, keys) + Inputs.Pick(Inputs.Shout, m, keys));
    assert q == [Inputs.MoveUp] + (left + ([Inputs.MoveDown] + tail));
    var i := 1 + |left|;
    assert q[i] == Inputs.MoveDown;
    forall j | i < j < |q|
      ensures !Vertical(q[j])
    {
      assert q[j] == tail[j - i - 1];
    }
    LastCommandWins(q, Origin);
  }

  /** With no key held the reset velocity stands, in either mode. */
  lemma NoKeysStandStill(mode: Inputs.InputMode)
    ensures SteerAll(Inputs.CommandsFor(mode, {}), Origin) == Origin
  {
    Inputs.NoKeysNoCommands(mode);
  }

  /**
   * `Command::execute(game)` for each command class. Pause flips the pause
   * flag and ToggleDebugBounds the window's debug flag; the movement
   * commands need a player with a velocity component; Attack and Shout
   * need a player and only ever set their flag.
   */
  method Execute(g: Game, c: Inputs.Command)
    modifies g`paused, g`showDebugBounds, PlayerSet(g)`attacking, PlayerSet(g)`shouting, PlayerVelocity(g)
    ensures g.paused == (if c == Inputs.Pause then !old(g.paused) else old(g.paused))
    ensures g.showDebugBounds == (if c == Inputs.ToggleDebugBounds then !old(g.showDebugBounds) else old(g.showDebugBounds))
    ensures g.player != null ==> g.player.attacking == (old(g.player.attacking) || c == Inputs.Attack)
    ensures g.player != null ==> g.player.shouting == (old(g.player.shouting) || c == Inputs.Shout)
    ensures g.player != null && g.player.velocityComp != null ==>
      g.player.velocityComp.velocity == Steer(c, old(g.player.velocityComp.velocity))
  {
    var player := g.GetPlayer();
    match c
    case Pause =>
      g.TogglePause();
    case ToggleDebugBounds =>
      g.showDebugBounds := !g.showDebugBounds;
    case Attack =>
      if player != null && !player.attacking {
        player.SetAttacking(true);
      }
    case Shout =>
      if player != null && !player.shouting {
        player.SetShouting(true);
      }
    case MoveRight =>
      var vcomp := VelocityOf(g);
      if vcomp != null {
        vcomp.SetVelocity(MoveSpeed, vcomp.velocity.y);
      }
    case MoveLeft =>
      var vcomp := VelocityOf(g);
      if vcomp != null {
        vcomp.SetVelocity(-MoveSpeed, vcomp.velocity.y);
      }
    case MoveUp =>
      var vcomp := VelocityOf(g);
      if vcomp != null {
        vcomp.SetVelocity(vcomp.velocity.x, -MoveSpeed);
      }
    case MoveDown =>
      var vcomp := VelocityOf(g);
      if vcomp != null {
        vcomp.SetVelocity(vcomp.velocity.x, MoveSpeed);
      }
  }

  /**
   * `PlayerInputComponent::update(game)`: nothing without a player;
   * otherwise the player's velocity is reset to (0, 0), the handler polls
   * `keys`, and the queued commands run in order. The queue holds only
   * movement, Attack and Shout, so the pause and debug flags never change.
   */
  method InputComponentUpdate(g: Game, comp: Inputs.PlayerInputComponent, keys: Inputs.KeyState)
    modifies comp.handler, g`paused, g`showDebugBounds, PlayerSet(g)`attacking, PlayerSet(g)`shouting, PlayerVelocity(g)
    ensures g.paused == old(g.paused) && g.showDebugBounds == old(g.showDebugBounds)
    ensures g.player == null ==> unchanged(comp.handler)
    ensures g.player != null ==>
      Inputs.ToggleState(comp.handler.inputMode, comp.handler.togglePressed) ==
      Inputs.Debounce(Inputs.ToggleState(old(comp.handler.inputMode), old(comp.handler.togglePressed)), Inputs.Enter in keys)
    ensures g.player != null ==> comp.handler.commandQueue == Inputs.CommandsFor(comp.handler.inputMode, keys)
    ensures g.player != null && g.player.velocityComp != null ==>
      g.player.velocityComp.velocity == SteerAll(comp.handler.commandQueue, Origin)
    ensures g.player != null ==> g.player.attacking == (old(g.player.attacking) || Inputs.Attack in comp.handler.commandQueue)
    ensures g.player != null ==> g.player.shouting == (old(g.player.shouting) || Inputs.Shout in comp.handler.commandQueue)
  {
    var player := g.GetPlayer();
    if player == null {
      return;
    }
    var velComp := player.velocityComp;
    if velComp != null {
      velComp.SetVelocity(0.0, 0.0);
    }
    var commands := comp.handler.HandleInput(keys);
    forall c | c in commands
      ensures c != Inputs.Pause && c != Inputs.ToggleDebugBounds
    {
      Inputs.CommandsForMembership(comp.handler.inputMode, keys, c);
    }
    var i := 0;
    while i < |commands|
      invariant 0 <= i <= |commands|
      invariant comp.handler.commandQueue == commands == Inputs.CommandsFor(comp.handler.inputMode, keys)
      invariant Inputs.ToggleState(comp.handler.inputMode, comp.handler.togglePressed) ==
        Inputs.Debounce(Inputs.ToggleState(old(comp.handler.inputMode), old(comp.handler.togglePressed)), Inputs.Enter in keys)
      invariant g.paused == old(g.paused) && g.showDebugBounds == old(g.showDebugBounds)
      invariant velComp != null ==> velComp.velocity == SteerAll(commands[..i], Origin)
      invariant player.attacking == (old(player.attacking) || Inputs.Attack in commands[..i])
      invariant player.shouting == (old(player.shouting) || Inputs.Shout in commands[..i])
    {
      assert commands[..i + 1][..i] == commands[..i];
      assert commands[..i + 1] == commands[..i] + [commands[i]];
      assert commands[i] in commands;
      Execute(g, commands[i]);
      i := i + 1;
    }
    assert commands[..i] == commands;
  }
}
