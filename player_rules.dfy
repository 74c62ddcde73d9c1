// The per-frame rules of the player (Player.cpp, Player.h): which animation
// is selected, when a fire is spawned and what it costs, and when the
// attack and shout flags are cleared. These are pure functions of the
// player's observable state; `Entities.Entity.PlayerUpdate` is proved to
// follow them.

module PlayerRules {
  import opened Wrappers
  import opened Geometry
  import opened Components
  import opened SpriteSheets

  const StartingHealth: int := 80
  const MaxHealth: int := 100
  const MaxWood: nat := 999
  const PlayerSpeed: real := 1.0
  const FireSpeed: real := 1.0
  const ShootingCost: int := 1
  const ShootCooldownTime: real := 0.5

  /** What a Potion restores and what a Log yields. */
  const PotionHealth: int := 10
  const LogWood: int := 15

  /** The animation `update` asks for, with its looping flag and the direction to face, if any. */
  datatype AnimChoice = AnimChoice(name: string, loop: bool, facing: Option<Direction>)

  /**
   * Attack takes priority over Shout, Shout over walking, and walking over
   * standing still. Only horizontal movement turns the sprite.
   */
  function ChooseAnimation(attacking: bool, shouting: bool, vel: Vec2): (c: AnimChoice)
    ensures attacking ==> c == AnimChoice("Attack", false, None)
    ensures !attacking && shouting ==> c == AnimChoice("Shout", false, None)
    ensures !attacking && !shouting ==> c.loop
    ensures !attacking && !shouting ==> (c.name == "Idle" <==> vel == Origin)
    ensures !attacking && !shouting ==> (c.name == "Walk" <==> vel != Origin)
    ensures c.facing.Some? <==> !attacking && !shouting && vel.x != 0.0
    ensures c.facing == Some(Left) <==> !attacking && !shouting && vel.x < 0.0
  {
    if attacking then AnimChoice("Attack", false, None)
    else if shouting then AnimChoice("Shout", false, None)
    else if vel.x > 0.0 then AnimChoice("Walk", true, Some(Right))
    else if vel.x < 0.0 then AnimChoice("Walk", true, Some(Left))
    else if vel.y < 0.0 || vel.y > 0.0 then AnimChoice("Walk", true, None)
    else AnimChoice("Idle", true, None)
  }

  /** Whether the sheet's current animation exists and is in its action frames. */
  predicate InAction(st: SheetState)
  {
    CurrentOf(st).Some? && CurrentOf(st).value.inAction
  }

  /** Whether the sheet's current animation exists and has stopped playing. */
  predicate Finished(st: SheetState)
  {
    CurrentOf(st).Some? && !CurrentOf(st).value.playing
  }

  /** The part of a Player that `update` reads and writes. */
  datatype PlayerState = PlayerState(
    sheet: SheetState,
    facing: Direction,
    attacking: bool,
    shouting: bool,
    wood: int,
    cooldown: real)

  datatype StepOutcome = StepOutcome(state: PlayerState, spawned: bool)

  /** The animation selection of `update`: only the sheet and the facing change. */
  function AnimStep(p: PlayerState, vel: Vec2): (q: PlayerState)
    ensures q.attacking == p.attacking && q.shouting == p.shouting
    ensures q.wood == p.wood && q.cooldown == p.cooldown
    ensures var c := ChooseAnimation(p.attacking, p.shouting, vel);
      q.sheet == SelectAnimation(p.sheet, c.name, true, c.loop).state &&
      q.facing == (if c.facing.Some? then c.facing.value else p.facing)
  {
    var c := ChooseAnimation(p.attacking, p.shouting, vel);
    p.(sheet := SelectAnimation(p.sheet, c.name, true, c.loop).state,
       facing := if c.facing.Some? then c.facing.value else p.facing)
  }

  /**
   * The cooldown tick and the fire spawn: a fire needs a shout, the current
   * animation in action, wood to pay and the cooldown over.
   */
  function ShootStep(p: PlayerState, elapsed: real): (r: StepOutcome)
    ensures r.state.sheet == p.sheet && r.state.facing == p.facing && r.state.attacking == p.attacking
    ensures r.spawned ==> p.shouting && p.wood >= ShootingCost
    ensures r.spawned ==> r.state.wood == p.wood - ShootingCost && r.state.cooldown == ShootCooldownTime
    ensures r.spawned ==> !r.state.shouting
    ensures !r.spawned ==> r.state.wood == p.wood && r.state.shouting == p.shouting
  {
    var cd := if p.cooldown > 0.0 then p.cooldown - elapsed else p.cooldown;
    var spawn := p.shouting && InAction(p.sheet) && p.wood >= ShootingCost && cd <= 0.0;
    if spawn then
      StepOutcome(p.(wood := p.wood - ShootingCost, cooldown := ShootCooldownTime, shouting := false), true)
    else
      StepOutcome(p.(cooldown := cd), false)
  }

  /** Both action flags drop once the current animation has stopped playing. */
  function FinishStep(p: PlayerState): (q: PlayerState)
    ensures q.sheet == p.sheet && q.facing == p.facing && q.wood == p.wood && q.cooldown == p.cooldown
    ensures q.attacking == (p.attacking && !Finished(p.sheet))
    ensures q.shouting == (p.shouting && !Finished(p.sheet))
  {
    if Finished(p.sheet) then p.(attacking := false, shouting := false) else p
  }

  /** One `Player::update` given the velocity it reads: the three stages in order. */
  function PlayerStep(p: PlayerState, vel: Vec2, elapsed: real): (r: StepOutcome)
    ensures r.spawned ==> p.shouting && p.wood >= ShootingCost
    ensures r.spawned ==> r.state.wood == p.wood - ShootingCost && r.state.cooldown == ShootCooldownTime
    ensures r.spawned ==> !r.state.shouting
    ensures !r.spawned ==> r.state.wood == p.wood
    ensures r.state.attacking ==> p.attacking
    ensures r.state.shouting ==> p.shouting
  {
    var s := ShootStep(AnimStep(p, vel), elapsed);
    StepOutcome(FinishStep(s.state), s.spawned)
  }

  /**
   * A whole `Player::update`: `PlayerStep`, then the base entity update,
   * which gives the sheet its time step when the player draws from one
   * (`animated`). Nothing but the sheet changes in that last stage.
   */
  function PlayerFrame(p: PlayerState, vel: Vec2, elapsed: real, animated: bool, advance: Animator): (r: StepOutcome)
    ensures var q := PlayerStep(p, vel, elapsed);
      r.spawned == q.spawned && r.state.(sheet := q.state.sheet) == q.state
    ensures var q := PlayerStep(p, vel, elapsed).state.sheet;
      r.state.sheet.current == q.current &&
      (animated && CurrentOf(q).Some? ==> CurrentOf(r.state.sheet) == Some(advance(CurrentOf(q).value, elapsed))) &&
      (!animated ==> r.state.sheet == q)
  {
    var q := PlayerStep(p, vel, elapsed);
    StepOutcome(q.state.(sheet := Animated(q.state.sheet, animated, advance, elapsed)), q.spawned)
  }

  /**
   * A new shout is answered once its animation reaches its action frames:
   * when the Shout animation, selected on the first frame, is playing and in
   * action after that frame's time step, a fire spawns on the first frame
   * or on the next.
   */
  lemma ShoutSpawnsInAction(p: PlayerState, v1: Vec2, e1: real, v2: Vec2, e2: real, advance: Animator)
    requires !p.attacking && p.shouting && "Shout" in p.sheet.animations && p.sheet.current != Some("Shout")
    requires p.wood >= ShootingCost && p.cooldown <= 0.0
    requires var a := SelectAnimation(p.sheet, "Shout", true, false).state.animations["Shout"];
      advance(a, e1).inAction && advance(a, e1).playing
    ensures var f := PlayerFrame(p, v1, e1, true, advance);
      f.spawned || PlayerFrame(f.state, v2, e2, true, advance).spawned
  {
    var f := PlayerFrame(p, v1, e1, true, advance);
    if !f.spawned {
      var sel := AnimStep(p, v1).sheet;
      assert sel == SelectAnimation(p.sheet, "Shout", true, false).state;
      assert CurrentOf(sel) == Some(sel.animations["Shout"]);
      assert f.state.shouting && !f.state.attacking;
      assert CurrentOf(f.state.sheet) == Some(advance(sel.animations["Shout"], e1));
      assert AnimStep(f.state, v2).sheet == f.state.sheet;
      SpawnGate(f.state, v2, e2);
    }
  }

  /**
   * An attack lasts as long as its animation: when the Attack animation,
   * selected on the first frame, has stopped playing after that frame's
   * time step, both action flags are down after the next frame.
   */
  lemma AttackEndsWithAnimation(p: PlayerState, v1: Vec2, e1: real, v2: Vec2, e2: real, advance: Animator)
    requires p.attacking && "Attack" in p.sheet.animations
    requires !advance(SelectAnimation(p.sheet, "Attack", true, false).state.animations["Attack"], e1).playing
    ensures var f := PlayerFrame(p, v1, e1, true, advance);
      !PlayerFrame(f.state, v2, e2, true, advance).state.attacking &&
      !PlayerFrame(f.state, v2, e2, true, advance).state.shouting
  {
    var f := PlayerFrame(p, v1, e1, true, advance);
    var sel := AnimStep(p, v1).sheet;
    assert sel == SelectAnimation(p.sheet, "Attack", true, false).state;
    assert CurrentOf(sel) == Some(sel.animations["Attack"]);
    assert CurrentOf(f.state.sheet) == Some(advance(sel.animations["Attack"], e1));
    if f.state.attacking {
      assert AnimStep(f.state, v2).sheet == f.state.sheet;
      FinishedAnimationClearsFlags(f.state, v2, e2);
    }
  }

  /** The sheet state after the step's animation selection. */
  function SelectedSheet(p: PlayerState, vel: Vec2): SheetState
  {
    AnimStep(p, vel).sheet
  }

  /** The spawn gate: shouting, the (newly selected) animation in action, wood to pay, cooldown over. */
  lemma SpawnGate(p: PlayerState, vel: Vec2, elapsed: real)
    ensures var cd := if p.cooldown > 0.0 then p.cooldown - elapsed else p.cooldown;
      PlayerStep(p, vel, elapsed).spawned <==>
        p.shouting && InAction(SelectedSheet(p, vel)) && p.wood >= ShootingCost && cd <= 0.0
  {
  }

  /** While an attack is under way the Attack animation is current (when the sheet has one). */
  lemma AttackShowsAttack(p: PlayerState, vel: Vec2, elapsed: real)
    requires p.attacking && "Attack" in p.sheet.animations
    ensures PlayerStep(p, vel, elapsed).state.sheet.current == Some("Attack")
  {
  }

  /** A fire is spawned at most once per shout: the next step cannot spawn without a new Shout command. */
  lemma SpawnOncePerShout(p: PlayerState, v1: Vec2, e1: real, v2: Vec2, e2: real)
    requires PlayerStep(p, v1, e1).spawned
    ensures !PlayerStep(PlayerStep(p, v1, e1).state, v2, e2).spawned
  {
  }

  /** A cooldown that outlasts the frame blocks spawning. */
  lemma CooldownBlocksSpawn(p: PlayerState, vel: Vec2, elapsed: real)
    requires p.cooldown > elapsed && p.cooldown > 0.0
    ensures !PlayerStep(p, vel, elapsed).spawned
  {
  }

  /** Spawning never takes wood below zero, so wood stays within [0, MaxWood]. */
  lemma WoodStaysInRange(p: PlayerState, vel: Vec2, elapsed: real)
    requires 0 <= p.wood <= MaxWood
    ensures 0 <= PlayerStep(p, vel, elapsed).state.wood <= MaxWood
  {
  }

  /** When the selected animation has stopped playing, both action flags are cleared. */
  lemma FinishedAnimationClearsFlags(p: PlayerState, vel: Vec2, elapsed: real)
    requires Finished(SelectedSheet(p, vel))
    ensures !PlayerStep(p, vel, elapsed).state.attacking && !PlayerStep(p, vel, elapsed).state.shouting
  {
  }

  /** A fire flies left when the player faces left, otherwise right, at unit speed. */
  function FireVelocity(facing: Direction): (v: Vec2)
    ensures v.y == 0.0
    ensures facing == Left <==> v.x < 0.0
    ensures v.x == FireSpeed || v.x == -FireSpeed
  {
    if facing == Left then Vec2(-FireSpeed, 0.0) else Vec2(FireSpeed, 0.0)
  }

  /** Where a new fire starts: the player's position offset by half the texture size. */
  function FireOrigin(pos: Vec2, texSize: IntVec): (o: Vec2)
    ensures o.x - pos.x == texSize.x as real * 0.5 && o.y - pos.y == texSize.y as real * 0.5
  {
    Vec2(pos.x + texSize.x as real * 0.5, pos.y + texSize.y as real * 0.5)
  }

  /**
   * `positionSprite`: the cell's corner plus a vertical offset that puts the
   * sprite's feet on the cell bottom, and half that offset horizontally.
   */
  function SpritePlacement(row: int, col: int, spriteWH: int, tileScale: real, scale: Vec2, texSize: IntVec): (p: Vec2)
    ensures var cy := spriteWH as real * tileScale - scale.y * texSize.y as real;
      p.y - row as real * spriteWH as real * tileScale == cy &&
      p.x - col as real * spriteWH as real * tileScale == cy * 0.5
  {
    var x := col as real * spriteWH as real * tileScale;
    var y := row as real * spriteWH as real * tileScale;
    var spriteSizeY := scale.y * texSize.y as real;
    var cy := spriteWH as real * tileScale - spriteSizeY;
    var cx := cy * 0.5;
    Vec2(x + cx, y + cy)
  }

  /** A sprite exactly one cell tall sits on the cell's corner. */
  lemma FullHeightSpriteAtCorner(row: int, col: int, spriteWH: int, tileScale: real, scale: Vec2, texSize: IntVec)
    requires scale.y * texSize.y as real == spriteWH as real * tileScale
    ensures SpritePlacement(row, col, spriteWH, tileScale, scale, texSize) ==
      Vec2(col as real * spriteWH as real * tileScale, row as real * spriteWH as real * tileScale)
  {
  }

  /**
   * The Mushroom's chase velocity: the direction towards the player,
   * normalised by `normalise` (a stand-in for division by the square-root
   * length) once the distance exceeds 0.001, else zero. The distance test is
   * stated on the squared length, which is equivalent for exact reals.
   */
  function ChaseVelocity(from: Vec2, to: Vec2, normalise: Vec2 -> Vec2): Vec2
  {
    var d := Vec2(to.x - from.x, to.y - from.y);
    if d.x * d.x + d.y * d.y > 0.000001 then normalise(d) else Origin
  }

  /** Within 0.001 of the player a mushroom stops; farther away it heads along the offset. */
  lemma ChaseNearAndFar(from: Vec2, to: Vec2, normalise: Vec2 -> Vec2)
    ensures var dx := to.x - from.x; var dy := to.y - from.y;
      (-0.0005 <= dx <= 0.0005 && -0.0005 <= dy <= 0.0005 ==> ChaseVelocity(from, to, normalise) == Origin) &&
      (dx * dx > 0.000001 ==> ChaseVelocity(from, to, normalise) == normalise(Vec2(dx, dy)))
  {
    var dx := to.x - from.x;
    var dy := to.y - from.y;
    if -0.0005 <= dx <= 0.0005 && -0.0005 <= dy <= 0.0005 {
      assert dx * dx <= 0.00000025 by { SquareBound(dx, 0.0005); }
      assert dy * dy <= 0.00000025 by { SquareBound(dy, 0.0005); }
    }
    assert dy * dy >= 0.0;
  }

  lemma SquareBound(a: real, b: real)
    requires b >= 0.0 && -b <= a <= b
    ensures a * a <= b * b
  {
    if a >= 0.0 {
      assert a * a <= a * b <= b * b;
    } else {
      assert a * a == (-a) * (-a);
      assert (-a) * (-a) <= (-a) * b <= b * b;
    }
  }
}
