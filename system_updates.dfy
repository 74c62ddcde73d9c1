// The `update(game, entity, elapsed)` of each concrete system
// (TTLSystem.cpp, MovementSystem.cpp, ColliderSystem.cpp, InputSystem.cpp,
// PrintDebugSystem.cpp, GraphicsSystem.cpp, GameplaySystem.cpp) and the
// virtual call `sys->update(...)` that the game's loops make.

module SystemUpdates {
  import opened Wrappers
  import opened Geometry
  import opened Components
  import opened SpriteSheets
  import opened Entities
  import opened PlayerRules
  import opened Observers
  import opened Systems
  import opened Games
  import Commands
  import Inputs

  /** A component-size vector converted to reals, as `sf::Vector2f(size)` does. */
  function AsReals(v: IntVec): (r: Vec2)
    ensures r.x == v.x as real && r.y == v.y as real
  {
    Vec2(v.x as real, v.y as real)
  }

  // ---------------------------------------------------------------------
  // TTL, Movement, Collider, PrintDebug, Graphics, Input

  /**
   * `TTLSystem::update`: throws without a TTL component; otherwise one
   * countdown step, after which a TTL at or below 0 deletes the entity.
   */
  method TTLUpdate(e: Entity) returns (status: Status)
    modifies e.ttlComp, e`deleted
    ensures status.Failure? <==> e.GetTTLComponent() == null
    ensures status.Failure? ==> status.error.RuntimeError? && e.deleted == old(e.deleted)
    ensures status.Failure? && e.ttlComp != null ==> e.ttlComp.ttl == old(e.ttlComp.ttl)
    ensures status.Success? ==>
      e.ttlComp.ttl == TtlStep(old(e.ttlComp.ttl)) && e.deleted == (old(e.deleted) || e.ttlComp.ttl <= 0)
  {
    var t := e.GetTTLComponent();
    if t == null {
      return Failure(RuntimeError("TTLSystem: Entity lacks TTLComponent"));
    }
    t.Update();
    if t.ttl <= 0 {
      e.DeleteEntity();
    }
    return Success;
  }

  /**
   * A fire starts at TTL 150 and each TTL update takes one off, so the
   * update that deletes it is the 150th: after n updates it is still
   * alive exactly when n < 150.
   */
  lemma FireLifetime(n: nat)
    ensures TtlAfter(FireTTL, n) <= 0 <==> n >= FireTTL
    ensures n < FireTTL ==> TtlAfter(FireTTL, n) == FireTTL - n
  {
    TtlAfterClosedForm(FireTTL, n);
  }

  /**
   * `MovementSystem::update`: throws unless both a velocity and a position
   * component are stored; otherwise the velocity component moves the
   * position component. The velocity itself is untouched.
   */
  method MovementUpdate(e: Entity, elapsed: real) returns (status: Status)
    requires e.Valid()
    modifies e.positionComp
    ensures status.Failure? <==> VELOCITY !in e.componentSet || POSITION !in e.componentSet
    ensures status.Failure? ==> status.error.RuntimeError? && e.positionComp.position == old(e.positionComp.position)
    ensures status.Success? ==> e.velocityComp != null
    ensures status.Success? ==>
      e.positionComp.position ==
        Integrate(old(e.positionComp.position), e.velocityComp.velocity, e.velocityComp.speed, elapsed)
  {
    var vel := e.GetComponent(VELOCITY);
    var pos := e.GetComponent(POSITION);
    if vel.None? || !vel.value.VelocityRef? || pos.None? || !pos.value.PositionRef? {
      return Failure(RuntimeError("MovementSystem: missing Velocity or Position component"));
    }
    assert e.Owned(e.components[VELOCITY]) && e.Owned(e.components[POSITION]);
    vel.value.velocity.Update(pos.value.position, elapsed);
    return Success;
  }

  /**
   * `ColliderSystem::update`: throws without a collider; otherwise the
   * collider box spans from the position over the unscaled texture size.
   */
  method ColliderUpdate(e: Entity) returns (status: Status)
    requires e.Valid()
    modifies e.colliderComp
    ensures status.Failure? <==> COLLIDER !in e.componentSet
    ensures status.Failure? ==> status.error.RuntimeError?
    ensures status.Failure? && e.colliderComp != null ==> e.colliderComp.boundingBox == old(e.colliderComp.boundingBox)
    ensures status.Success? ==> e.colliderComp != null
    ensures status.Success? ==>
      e.colliderComp.boundingBox == SpanFrom(e.GetPosition(), AsReals(e.GetTextureSize()))
  {
    var comp := e.GetComponent(COLLIDER);
    if comp.None? || !comp.value.ColliderRef? {
      return Failure(RuntimeError("ColliderSystem: Entity lacks a ColliderComponent"));
    }
    assert e.Owned(e.components[COLLIDER]);
    var pos := e.GetPosition();
    var size := AsReals(e.GetTextureSize());
    comp.value.collider.Update(pos, size);
    return Success;
  }

  /**
   * The collider box is the entity's own bounding box only when the sprite
   * scale is 1: the entity box is scaled, the collider box is not.
   */
  lemma ColliderIgnoresScale(pos: Vec2, tex: IntVec, scale: real)
    requires tex.x > 0 && scale > 1.0
    ensures SpanFrom(pos, AsReals(tex)) != SpanFrom(pos, Vec2(tex.x as real * scale, tex.y as real * scale))
  {
    assert tex.x as real * scale > tex.x as real;
  }

  /**
   * `PrintDebugSystem::update`: throws without a collider; the drawing of
   * the box when the debug flag is on changes no modelled state.
   */
  method PrintDebugUpdate(e: Entity) returns (status: Status)
    requires e.Valid()
    ensures status.Failure? <==> COLLIDER !in e.componentSet
    ensures status.Failure? ==> status.error.RuntimeError?
  {
    var comp := e.GetComponent(COLLIDER);
    if comp.None? || !comp.value.ColliderRef? {
      return Failure(RuntimeError("PrintDebugSystem: Entity lacks a ColliderComponent"));
    }
    return Success;
  }

  /** `GraphicsSystem::update`: throws without a graphics component; updating and drawing it are not modelled. */
  method GraphicsUpdate(e: Entity) returns (status: Status)
    requires e.Valid()
    ensures status.Failure? <==> GRAPHICS !in e.componentSet
    ensures status.Failure? ==> status.error.RuntimeError?
  {
    var comp := e.GetComponent(GRAPHICS);
    if comp.None? {
      return Failure(RuntimeError("GraphicsSystem: Entity lacks a GraphicsComponent"));
    }
    return Success;
  }

  /** No modelled component is a graphics component, so no entity ever has the GRAPHICS bit. */
  lemma NoGraphicsBit(e: Entity)
    requires e.Valid()
    ensures GRAPHICS !in e.componentSet
  {
  }

  /** The input handler of e's input component, as a set. */
  function Handlers(e: Entity): set<Inputs.PlayerInputHandler>
  {
    if e.inputComp != null then {e.inputComp.handler} else {}
  }

  /**
   * The Input system's effect on e: with an input component and a player,
   * the handler's toggle follows the Enter key, its queue is the keys'
   * commands in its mode, and the queue steers the player and latches its
   * attack and shout flags; without either, nothing it could touch changes.
   */
  twostate predicate InputDone(g: Game, e: Entity, keys: Inputs.KeyState)
    reads g`player, e`componentSet, Handlers(e), Commands.PlayerSet(g), Commands.PlayerVelocity(g)
  {
    g.player == old(g.player) &&
    (INPUT !in e.componentSet || g.player == null ==>
      unchanged(Handlers(e)) && unchanged(Commands.PlayerSet(g)`attacking, Commands.PlayerSet(g)`shouting) &&
      unchanged(Commands.PlayerVelocity(g))) &&
    (INPUT in e.componentSet && g.player != null ==>
      e.inputComp != null &&
      var h := e.inputComp.handler;
      Inputs.ToggleState(h.inputMode, h.togglePressed) ==
        Inputs.Debounce(Inputs.ToggleState(old(h.inputMode), old(h.togglePressed)), Inputs.Enter in keys) &&
      h.commandQueue == Inputs.CommandsFor(h.inputMode, keys) &&
      (g.player.velocityComp != null ==> g.player.velocityComp.velocity == Commands.SteerAll(h.commandQueue, Origin)) &&
      g.player.attacking == (old(g.player.attacking) || Inputs.Attack in h.commandQueue) &&
      g.player.shouting == (old(g.player.shouting) || Inputs.Shout in h.commandQueue))
  }

  /**
   * `InputSystem::update`: when e has an input component, that component's
   * `update(game)`; otherwise nothing. It never throws.
   */
  method InputUpdate(g: Game, e: Entity, keys: Inputs.KeyState)
    requires e.Valid()
    modifies Handlers(e), g`paused, g`showDebugBounds, Commands.PlayerSet(g)`attacking, Commands.PlayerSet(g)`shouting,
      Commands.PlayerVelocity(g)
    ensures g.paused == old(g.paused) && g.showDebugBounds == old(g.showDebugBounds)
    ensures InputDone(g, e, keys)
    ensures Kept(g)
  {
    var comp := e.GetComponent(INPUT);
    if comp.Some? && comp.value.InputRef? {
      assert e.Owned(e.components[INPUT]);
      Commands.InputComponentUpdate(g, comp.value.input, keys);
    }
  }

  // ---------------------------------------------------------------------
  // Gameplay

  /** The player's health component, as a set. */
  function PlayerHealth(g: Game): set<HealthComponent>
    reads g`player
  {
    if g.player != null && g.player.healthComp != null then {g.player.healthComp} else {}
  }

  /** The health component of e, as a set. */
  function HealthOf(e: Entity): set<HealthComponent>
  {
    if e.healthComp != null then {e.healthComp} else {}
  }

  /** The player's achievement observer, as a set. */
  function PlayerWatchers(g: Game): set<AchievementObserver>
    reads g`player, Commands.PlayerSet(g)`observer
  {
    if g.player != null && g.player.observer != null then {g.player.observer} else {}
  }

  /** `update` goes past its two early returns: e is not of kind PLAYER and there is a player. */
  predicate Active(g: Game, e: Entity)
    reads g`player
  {
    g.player != null && e.kind != PLAYER
  }

  /** Past the early returns, and the player's box meets e's. */
  predicate Touching(g: Game, e: Entity)
    reads g`player, Commands.PlayerSet(g)`boundingBox, e`boundingBox
  {
    Active(g, e) && Intersects(g.player.boundingBox, e.boundingBox)
  }

  /** The contact that deletes e: a Potion, or a Log while the player attacks. */
  predicate ContactDeletes(g: Game, e: Entity)
    reads g`player, Commands.PlayerSet(g)`boundingBox, Commands.PlayerSet(g)`attacking, e`boundingBox
  {
    Touching(g, e) &&
    ((e.kind == POTION && e.variant == PotionClass) || (e.kind == LOG && e.variant == LogClass && g.player.attacking))
  }

  /** The index of the first entity of `es` of kind FIRE whose box meets `box`, if any. */
  function FirstFireHit(es: seq<Entity>, box: Rect): (r: Option<nat>)
    reads Games.Elements(es)`boundingBox
    ensures r.Some? ==> r.value < |es| && es[r.value].kind == FIRE && Intersects(es[r.value].boundingBox, box)
    ensures r.Some? ==> forall j :: 0 <= j < r.value ==> !(es[j].kind == FIRE && Intersects(es[j].boundingBox, box))
    ensures r.None? ==> forall j :: 0 <= j < |es| ==> !(es[j].kind == FIRE && Intersects(es[j].boundingBox, box))
    decreases |es|
  {
    if es == [] then None
    else if es[0].kind == FIRE && Intersects(es[0].boundingBox, box) then Some(0)
    else
      match FirstFireHit(es[1..], box)
      case None => None
      case Some(i) => Some(i + 1)
  }

  /** The fire that hits e this update: the first one, and only for an active Mushroom. */
  function FireHit(g: Game, e: Entity): (r: Option<nat>)
    reads g`player, g`entities, e`boundingBox, Games.Elements(g.entities)`boundingBox
    ensures r.Some? ==> r.value < |g.entities|
  {
    if Active(g, e) && e.kind == MUSHROOM && e.variant == MushroomClass then FirstFireHit(g.entities, e.boundingBox)
    else None
  }

  /** Whether e's contact with the player heals it: e is a Potion object. */
  predicate Heals(g: Game, e: Entity)
    reads g`player, Commands.PlayerSet(g)`boundingBox, e`boundingBox
  {
    Touching(g, e) && e.kind == POTION && e.variant == PotionClass
  }

  /**
   * The `switch` of `GameplaySystem::update`, entered when the boxes
   * overlap: a Potion heals the player by its health and is deleted, and
   * the observer counts it; a Log adds its wood and is deleted if the player
   * is attacking; any entity of kind MUSHROOM costs the player 1 health.
   */
  method Contact(g: Game, e: Entity)
    requires Active(g, e) && g.player.variant == PlayerClass && g.player.Shape()
    modifies PlayerHealth(g)`currentHealth, PlayerWatchers(g)`potionsCollected, Commands.PlayerSet(g)`wood, e`deleted
    ensures g.player.healthComp != null
    ensures var h := g.player.healthComp;
      h.currentHealth ==
        if old(Heals(g, e)) then Clamp(old(h.currentHealth) + PotionHealth, h.maxHealth)
        else if old(Touching(g, e)) && e.kind == MUSHROOM then Clamp(old(h.currentHealth) - 1, h.maxHealth)
        else old(h.currentHealth)
    ensures g.player.observer != null ==>
      g.player.observer.potionsCollected == old(g.player.observer.potionsCollected) + (if old(Heals(g, e)) then 1 else 0)
    ensures g.player.wood ==
      if old(Touching(g, e)) && e.kind == LOG && e.variant == LogClass && old(g.player.attacking) then
        Clamp(old(g.player.wood) + LogWood, MaxWood)
      else old(g.player.wood)
    ensures e.deleted == (old(e.deleted) || old(ContactDeletes(g, e)))
    ensures forall x | x in g.entities && x != e :: x.deleted == old(x.deleted)
    ensures FireHit(g, e) == old(FireHit(g, e))
    ensures e.healthComp != null && e.healthComp != g.player.healthComp ==>
      e.healthComp.currentHealth == old(e.healthComp.currentHealth)
    ensures Kept(g)
    ensures g.paused == old(g.paused) && g.showDebugBounds == old(g.showDebugBounds)
    ensures forall t | t in old(TtlComps(g)) :: t.ttl == old(t.ttl)
  {
    var player := g.player;
    assert player.Shape();
    if !Intersects(player.boundingBox, e.boundingBox) {
      return;
    }
    if e.kind == POTION {
      if e.variant == PotionClass {
        player.healthComp.ChangeHealth(PotionHealth);
        e.DeleteEntity();
        if player.observer != null {
          var _ := player.observer.OnPotionCollected();
        }
      }
    } else if e.kind == LOG {
      if e.variant == LogClass && player.attacking {
        player.AddWood(LogWood);
        e.DeleteEntity();
      }
    } else if e.kind == MUSHROOM {
      player.healthComp.ChangeHealth(-1);
    }
  }

  /**
   * The fire loop of `GameplaySystem::update`, for a Mushroom object only:
   * the first FIRE in the game's list whose box meets the mushroom's costs
   * it 10 health and is deleted, and the mushroom is deleted when its health
   * is then at or below 0; later fires are not looked at.
   */
  method FireHits(g: Game, e: Entity)
    requires Active(g, e) && e.Shape() && e.healthComp != g.player.healthComp
    modifies HealthOf(e)`currentHealth, Games.Elements(g.entities)`deleted, e`deleted
    ensures g.player.healthComp != null ==> g.player.healthComp.currentHealth == old(g.player.healthComp.currentHealth)
    ensures g.player.wood == old(g.player.wood) && g.player.observer == old(g.player.observer)
    ensures g.player.observer != null ==> g.player.observer.potionsCollected == old(g.player.observer.potionsCollected)
    ensures var k := old(FireHit(g, e));
      (k.Some? ==> e.healthComp != null &&
                   e.healthComp.currentHealth == Clamp(old(e.healthComp.currentHealth) - 10, e.healthComp.maxHealth)) &&
      (k.None? && e.healthComp != null ==> e.healthComp.currentHealth == old(e.healthComp.currentHealth)) &&
      forall x | x in g.entities || x == e :: x.deleted ==
        (old(x.deleted) || (k.Some? && x == g.entities[k.value]) || (k.Some? && x == e && e.healthComp.currentHealth <= 0))
    ensures Kept(g)
    ensures g.paused == old(g.paused) && g.showDebugBounds == old(g.showDebugBounds)
    ensures forall t | t in old(TtlComps(g)) :: t.ttl == old(t.ttl)
  {
    if !(e.kind == MUSHROOM && e.variant == MushroomClass) {
      return;
    }
    var i := 0;
    while i < |g.entities|
      invariant 0 <= i <= |g.entities|
      invariant forall j :: 0 <= j < i ==> !(g.entities[j].kind == FIRE && Intersects(g.entities[j].boundingBox, e.boundingBox))
      invariant e.healthComp.currentHealth == old(e.healthComp.currentHealth)
      invariant forall x | x in g.entities || x == e :: x.deleted == old(x.deleted)
    {
      var f := g.entities[i];
      if f.kind == FIRE && Intersects(f.boundingBox, e.boundingBox) {
        assert FirstFireHit(g.entities, e.boundingBox) == Some(i);
        e.healthComp.ChangeHealth(-10);
        f.DeleteEntity();
        if e.healthComp.currentHealth <= 0 {
          e.DeleteEntity();
        }
        return;
      }
      i := i + 1;
    }
  }

  /**
   * The Gameplay system's effect on e: the player's health, its observer's
   * potion count and its wood follow the contact rules, and the first fire
   * that hits a Mushroom costs it 10 health; exactly the contact, the fire
   * and a mushroom left without health are deleted.
   */
  twostate predicate GameplayDone(g: Game, e: Entity)
    reads g`player, g`entities, e, Commands.PlayerSet(g), PlayerHealth(g), PlayerWatchers(g), HealthOf(e)
    reads Games.Elements(g.entities)
  {
    g.player == old(g.player) && g.entities == old(g.entities) &&
    (g.player != null ==> g.player.healthComp != null) &&
    (g.player != null ==>
        var h := g.player.healthComp;
        h.currentHealth ==
          if old(Heals(g, e)) then Clamp(old(h.currentHealth) + PotionHealth, h.maxHealth)
          else if old(Touching(g, e)) && e.kind == MUSHROOM then Clamp(old(h.currentHealth) - 1, h.maxHealth)
          else old(h.currentHealth)) &&
    (g.player != null ==> g.player.observer == old(g.player.observer)) &&
    (g.player != null && g.player.observer != null ==>
        g.player.observer.potionsCollected == old(g.player.observer.potionsCollected) + (if old(Heals(g, e)) then 1 else 0)) &&
    (g.player != null ==>
        g.player.wood ==
          if old(Touching(g, e)) && e.kind == LOG && e.variant == LogClass && old(g.player.attacking) then
            Clamp(old(g.player.wood) + LogWood, MaxWood)
          else old(g.player.wood)) &&
    (var k := old(FireHit(g, e));
        (k.Some? ==> e.healthComp != null &&
                     e.healthComp.currentHealth == Clamp(old(e.healthComp.currentHealth) - 10, e.healthComp.maxHealth)) &&
        (k.None? && e.healthComp != null && e != g.player ==> e.healthComp.currentHealth == old(e.healthComp.currentHealth)) &&
        forall x | x in g.entities + [e] :: x.deleted ==
          (old(x.deleted) || (x == e && old(ContactDeletes(g, e))) || (k.Some? && x == g.entities[k.value]) ||
           (k.Some? && x == e && e.healthComp.currentHealth <= 0)))
  }

  /** `update` past its early returns: the contact rules, then the fire loop. */
  method Engage(g: Game, e: Entity)
    requires Active(g, e) && e.Shape() && g.player.variant == PlayerClass && g.player.Shape()
    requires e.healthComp != g.player.healthComp
    modifies PlayerHealth(g)`currentHealth, HealthOf(e)`currentHealth, PlayerWatchers(g)`potionsCollected,
      Commands.PlayerSet(g)`wood, Games.Elements(g.entities)`deleted, e`deleted
    ensures GameplayDone(g, e)
    ensures Kept(g)
    ensures g.paused == old(g.paused) && g.showDebugBounds == old(g.showDebugBounds)
    ensures forall t | t in old(TtlComps(g)) :: t.ttl == old(t.ttl)
  {
    Contact(g, e);
    FireHits(g, e);
  }

  /**
   * `GameplaySystem::update(game, e)`. Nothing for a PLAYER or without a
   * player; otherwise the contact rules when the boxes overlap, the fire
   * rule for a Mushroom, and `loadNext` when the player touches a GOAL
   * (`loadNextLevel` itself is not modelled).
   */
  method GameplayUpdate(g: Game, e: Entity) returns (loadNext: bool)
    requires e.Shape() && (g.player != null ==> g.player.variant == PlayerClass && g.player.Shape())
    requires g.player != null && e != g.player ==> e.healthComp != g.player.healthComp
    modifies PlayerHealth(g)`currentHealth, HealthOf(e)`currentHealth, PlayerWatchers(g)`potionsCollected,
      Commands.PlayerSet(g)`wood, Games.Elements(g.entities)`deleted, e`deleted
    ensures loadNext <==> old(Touching(g, e)) && e.kind == GOAL
    ensures GameplayDone(g, e)
    ensures Kept(g)
    ensures g.paused == old(g.paused) && g.showDebugBounds == old(g.showDebugBounds)
    ensures forall t | t in old(TtlComps(g)) :: t.ttl == old(t.ttl)
  {
    if g.player == null || e.kind == PLAYER {
      return false;
    }
    Engage(g, e);
    loadNext := e.kind == GOAL && Intersects(g.player.boundingBox, e.boundingBox);
  }

  // ---------------------------------------------------------------------
  // Dispatch

  /** Whether the system's `update` throws on e. */
  predicate Fails(k: SystemKind, e: Entity)
    reads e`componentSet
  {
    match k
    case TTLSystem => e.GetTTLComponent() == null
    case MovementSystem => VELOCITY !in e.componentSet || POSITION !in e.componentSet
    case ColliderSystem => COLLIDER !in e.componentSet
    case PrintDebugSystem => COLLIDER !in e.componentSet
    case GraphicsSystem => GRAPHICS !in e.componentSet
    case InputSystem => false
    case GameplaySystem => false
  }

  /**
   * None of the game's systems throws on an entity it validates: each
   * mask names the components its `update` looks up, and only a Fire can
   * hold a TTL component, which `getTTLComponent` then returns.
   */
  lemma ValidatedNeverFails(s: System, e: Entity)
    requires s in GameSystems && e.Valid() && e.Shape() && Validate(s, e.componentSet)
    ensures !Fails(s.kind, e)
  {
    if s.kind == TTLSystem {
      assert TTL in e.componentSet;
      assert e.Owned(e.components[TTL]) && e.components[TTL].ID() == TTL;
      assert e.ttlComp != null;
    }
  }

  /** The objects the entity-local systems change are objects of the game. */
  lemma LocalFrame(g: Game, e: Entity)
    requires e in g.world
    ensures e.positionComp in g.Objs()
    ensures e.ttlComp != null ==> e.ttlComp in g.Objs()
    ensures e.colliderComp != null ==> e.colliderComp in g.Objs()
  {
    assert e.positionComp in e.Slots();
  }

  /** The objects the Input and Gameplay systems change are objects, or entities, of the game. */
  lemma GlobalFrame(g: Game, e: Entity)
    requires g.Valid() && e in g.world
    ensures Handlers(e) <= g.Objs() && HealthOf(e) <= g.Objs()
    ensures Commands.PlayerVelocity(g) <= g.Objs() && PlayerHealth(g) <= g.Objs() && PlayerWatchers(g) <= g.Objs()
    ensures Commands.PlayerSet(g) <= g.world && Games.Elements(g.entities) <= g.world
  {
    assert e.Slots() <= g.Objs();
    if g.player != null {
      assert g.player.Slots() <= g.Objs();
    }
  }

  /** Whether the system's update touches only the entity it is given. */
  predicate Local(k: SystemKind)
  {
    k != InputSystem && k != GameplaySystem
  }

  /**
   * The call `sys->update(game, e, elapsed)` for the systems that act on e
   * alone: it throws exactly as `Fails` says, and otherwise has the effect
   * of that system's own update.
   */
  method UpdateLocal(g: Game, k: SystemKind, e: Entity, elapsed: real) returns (status: Status)
    requires g.Valid() && e in g.world && Local(k)
    modifies e.ttlComp, e.positionComp, e.colliderComp, e`deleted
    ensures status.Failure? <==> Fails(k, e)
    ensures k == TTLSystem && status.Success? ==>
      e.ttlComp != null && e.ttlComp.ttl == TtlStep(old(e.ttlComp.ttl)) &&
      e.deleted == (old(e.deleted) || e.ttlComp.ttl <= 0)
    ensures k != TTLSystem ==> e.deleted == old(e.deleted)
    ensures k == MovementSystem && status.Success? ==>
      e.velocityComp != null &&
      e.positionComp.position ==
        Integrate(old(e.positionComp.position), e.velocityComp.velocity, e.velocityComp.speed, elapsed)
    ensures k != MovementSystem ==> e.positionComp.position == old(e.positionComp.position)
    ensures k == ColliderSystem && status.Success? ==>
      e.colliderComp != null &&
      e.colliderComp.boundingBox == SpanFrom(e.GetPosition(), AsReals(e.GetTextureSize()))
    ensures forall x | x in g.world && x.ttlComp != null && !(k == TTLSystem && status.Success? && x.ttlComp == e.ttlComp) ::
      x.ttlComp.ttl == old(x.ttlComp.ttl)
    ensures Kept(g)
  {
    assert e.Valid() && e.Shape();
    match k
    case TTLSystem =>
      status := TTLUpdate(e);
    case MovementSystem =>
      status := MovementUpdate(e, elapsed);
    case ColliderSystem =>
      status := ColliderUpdate(e);
    case PrintDebugSystem =>
      status := PrintDebugUpdate(e);
    case GraphicsSystem =>
      status := GraphicsUpdate(e);
  }

  /** The TTL components of the game's entities. */
  ghost function TtlComps(g: Game): set<TTLComponent>
    reads g`world
  {
    set x | x in g.world && x.ttlComp != null :: x.ttlComp
  }

  /**
   * `sys->update(game, e, elapsed)` for the Input system on an entity of
   * the game: it never throws, keeps the game's invariant, its pause and
   * debug flags and every TTL component, and has the effect of
   * `InputUpdate`.
   */
  method InputStep(g: Game, e: Entity, keys: Inputs.KeyState)
    requires g.Valid() && e in g.world
    modifies Handlers(e), g`paused, g`showDebugBounds, Commands.PlayerSet(g)`attacking, Commands.PlayerSet(g)`shouting,
      Commands.PlayerVelocity(g)
    ensures g.Valid() && g.paused == old(g.paused) && g.showDebugBounds == old(g.showDebugBounds)
    ensures forall t | t in old(TtlComps(g)) :: t.ttl == old(t.ttl)
    ensures InputDone(g, e, keys)
    ensures Kept(g)
  {
    assert e.Valid();
    InputUpdate(g, e, keys);
    KeptValid(g);
  }

  /**
   * `sys->update(game, e, elapsed)` for the Gameplay system on an entity
   * of the game: it never throws, keeps the game's invariant, its pause
   * and debug flags and every TTL component, and has the effect of
   * `GameplayUpdate`.
   */
  method GameplayStep(g: Game, e: Entity)
    requires g.Valid() && e in g.world
    modifies PlayerHealth(g)`currentHealth, HealthOf(e)`currentHealth, PlayerWatchers(g)`potionsCollected,
      Commands.PlayerSet(g)`wood, Games.Elements(g.entities)`deleted, e`deleted
    ensures g.Valid() && g.paused == old(g.paused) && g.showDebugBounds == old(g.showDebugBounds)
    ensures forall t | t in old(TtlComps(g)) :: t.ttl == old(t.ttl)
    ensures GameplayDone(g, e)
    ensures Kept(g)
  {
    assert e.Shape();
    if g.player != null {
      assert g.player.Shape();
    }
    var _ := GameplayUpdate(g, e);
    KeptValid(g);
  }

  /** `UpdateLocal` on an entity of the game, which keeps the game's invariant. */
  method LocalStep(g: Game, k: SystemKind, e: Entity, elapsed: real) returns (status: Status)
    requires g.Valid() && e in g.world && Local(k)
    modifies e.ttlComp, e.positionComp, e.colliderComp, e`deleted
    ensures g.Valid()
    ensures status.Failure? <==> Fails(k, e)
    ensures forall x | x in g.world && x.ttlComp != null ::
      x.ttlComp.ttl == if k == TTLSystem && status.Success? && x.ttlComp == e.ttlComp then TtlStep(old(x.ttlComp.ttl)) else old(x.ttlComp.ttl)
    ensures k == TTLSystem && status.Success? ==> e.deleted == (old(e.deleted) || e.ttlComp.ttl <= 0)
    ensures k != TTLSystem ==> e.deleted == old(e.deleted)
    ensures k == MovementSystem && status.Success? ==>
      e.velocityComp != null &&
      e.positionComp.position ==
        Integrate(old(e.positionComp.position), e.velocityComp.velocity, e.velocityComp.speed, elapsed)
    ensures k != MovementSystem ==> e.positionComp.position == old(e.positionComp.position)
    ensures k == ColliderSystem && status.Success? ==>
      e.colliderComp != null &&
      e.colliderComp.boundingBox == SpanFrom(e.GetPosition(), AsReals(e.GetTextureSize()))
    ensures Kept(g)
  {
    status := UpdateLocal(g, k, e, elapsed);
    KeptValid(g);
  }

  /**
   * `sys->update(game, e, elapsed)` for a system of kind `s.kind`: the
   * call throws exactly as `Fails` says, keeps the game's invariant and
   * its pause and debug flags, and otherwise has the effect of that
   * system's own update (`UpdateLocal`, `InputUpdate`, `GameplayUpdate`).
   * Only a TTL update changes a TTL component, and only e's: one countdown
   * step.
   */
  method Dispatch(g: Game, s: System, e: Entity, elapsed: real, keys: Inputs.KeyState) returns (status: Status)
    requires g.Valid() && e in g.world
    modifies g`paused, g`showDebugBounds, g.world`deleted, g.world`wood, g.world`attacking, g.world`shouting, g.Objs()
    ensures g.Valid() && g.paused == old(g.paused) && g.showDebugBounds == old(g.showDebugBounds)
    ensures status.Failure? <==> Fails(s.kind, e)
    ensures forall t | t in old(TtlComps(g)) ::
      t.ttl == if s.kind == TTLSystem && status.Success? && t == e.ttlComp then TtlStep(old(t.ttl)) else old(t.ttl)
    ensures s.kind == TTLSystem && status.Success? ==> e.deleted == (old(e.deleted) || e.ttlComp.ttl <= 0)
    ensures Local(s.kind) && s.kind != TTLSystem ==> e.deleted == old(e.deleted)
    ensures s.kind == MovementSystem && status.Success? ==>
      e.velocityComp != null &&
      e.positionComp.position ==
        Integrate(old(e.positionComp.position), e.velocityComp.velocity, e.velocityComp.speed, elapsed)
    ensures Local(s.kind) && s.kind != MovementSystem ==> e.positionComp.position == old(e.positionComp.position)
    ensures s.kind == ColliderSystem && status.Success? ==>
      e.colliderComp != null &&
      e.colliderComp.boundingBox == SpanFrom(e.GetPosition(), AsReals(e.GetTextureSize()))
    ensures s.kind == InputSystem ==> InputDone(g, e, keys)
    ensures s.kind == GameplaySystem ==> GameplayDone(g, e)
    ensures Kept(g)
  {
    if Local(s.kind) {
      LocalFrame(g, e);
      status := LocalStep(g, s.kind, e, elapsed);
    } else if s.kind == InputSystem {
      GlobalFrame(g, e);
      InputStep(g, e, keys);
      status := Success;
    } else {
      GlobalFrame(g, e);
      GameplayStep(g, e);
      status := Success;
    }
  }
}
