// Entities (Entity.h, Entity.cpp, StaticEntities.h, Fire.cpp, Mushroom.cpp,
// Player.cpp). The C++ class hierarchy becomes one class whose `variant`
// records the dynamic class; the pointers a subclass keeps to its own
// components are constant fields that are null on other variants.

module Entities {
  import opened Wrappers
  import opened Geometry
  import opened Components
  import opened SpriteSheets
  import Inputs
  import opened Observers
  import opened PlayerRules

  /** `EntityID`: an unsigned 32-bit integer. */
  type EntityID = x: int | 0 <= x < 0x1_0000_0000

  datatype EntityType = UNDEFINED | PLAYER | POTION | LOG | FIRE | MUSHROOM | GOAL

  /** The enumerator values, UNDEFINED being -1. */
  function TypeValue(t: EntityType): (n: int)
    ensures -1 <= n <= 5
    ensures n == -1 <==> t == UNDEFINED
  {
    match t
    case UNDEFINED => -1
    case PLAYER => 0
    case POTION => 1
    case LOG => 2
    case FIRE => 3
    case MUSHROOM => 4
    case GOAL => 5
  }

  lemma TypeValueInjective(a: EntityType, b: EntityType)
    ensures TypeValue(a) == TypeValue(b) ==> a == b
  {
  }

  /** The dynamic class of an entity object. */
  datatype Variant = BaseClass | PlayerClass | PotionClass | LogClass | FireClass | MushroomClass

  const FireTTL: int := 150
  const FireMoveSpeed: real := 200.0
  const MushroomHealth: int := 30
  const MushroomSpeed: real := 50.0
  const FireTexture: string := "img/fire.png"

  /** A component stored in an entity's table, tagged by its concrete class. */
  datatype Component =
    | PositionRef(position: PositionComponent)
    | VelocityRef(velocity: VelocityComponent)
    | HealthRef(health: HealthComponent)
    | TTLRef(ttl: TTLComponent)
    | ColliderRef(collider: ColliderComponent)
    | InputRef(input: Inputs.PlayerInputComponent)
  {
    /** `getID()` of the component's class. */
    function ID(): ComponentID
    {
      match this
      case PositionRef(_) => POSITION
      case VelocityRef(_) => VELOCITY
      case HealthRef(_) => HEALTH
      case TTLRef(_) => TTL
      case ColliderRef(_) => COLLIDER
      case InputRef(_) => INPUT
    }
  }

  /** The table after `addComponent(c)`: c stored under its kind, replacing any previous one. */
  function Store(m: map<ComponentID, Component>, c: Component): map<ComponentID, Component>
  {
    m[c.ID() := c]
  }

  class Entity {
    const kind: EntityType
    const variant: Variant
    var id: EntityID
    var deleted: bool
    var componentSet: Bitmask
    var components: map<ComponentID, Component>
    const positionComp: PositionComponent
    var boundingBox: Rect
    var bboxSize: Vec2
    var isSpriteSheet: bool
    const sheet: SpriteSheet
    /** `texture.getSize()` and `sprite.getScale()` of the plain sprite. */
    var textureSize: IntVec
    var spriteScale: Vec2

    // Pointers the subclasses keep to their own components.
    const velocityComp: VelocityComponent?
    const healthComp: HealthComponent?
    const ttlComp: TTLComponent?
    const colliderComp: ColliderComponent?
    const inputComp: Inputs.PlayerInputComponent?

    // Player state.
    var attacking: bool
    var shouting: bool
    var wood: int
    var shootCooldown: real
    var observer: AchievementObserver?

    /**
     * The component bits are exactly the table's keys, each entry sits under
     * its own kind, and every stored component is one the entity holds.
     */
    predicate Valid()
      reads this`componentSet, this`components
    {
      componentSet == components.Keys &&
      forall k :: k in components ==> components[k].ID() == k && Owned(components[k])
    }

    /**
     * Each class fixes its kind and holds the component pointers it
     * declares; only a Fire holds a TTL component.
     */
    predicate Shape()
    {
      (variant == PlayerClass ==> kind == PLAYER && velocityComp != null && healthComp != null && inputComp != null) &&
      (variant == PotionClass ==> kind == POTION) &&
      (variant == LogClass ==> kind == LOG) &&
      (variant != FireClass <==> ttlComp == null) &&
      (variant == FireClass ==> kind == FIRE && velocityComp != null) &&
      (variant == MushroomClass ==> kind == MUSHROOM && healthComp != null && velocityComp != null && colliderComp != null)
    }

    /** Whether a component is the one the entity holds through its pointer of that kind. */
    predicate Owned(c: Component)
    {
      match c
      case PositionRef(p) => p == positionComp
      case VelocityRef(v) => v == velocityComp
      case HealthRef(h) => h == healthComp
      case TTLRef(t) => t == ttlComp
      case ColliderRef(cc) => cc == colliderComp
      case InputRef(i) => i == inputComp
    }

    /** The objects held through the constant pointers. */
    function Slots(): set<object>
    {
      {positionComp as object, sheet} +
      (if velocityComp != null then {velocityComp as object} else {}) +
      (if healthComp != null then {healthComp as object} else {}) +
      (if ttlComp != null then {ttlComp as object} else {}) +
      (if colliderComp != null then {colliderComp as object} else {}) +
      (if inputComp != null then {inputComp as object, inputComp.handler} else {})
    }

    /** The observer, as a set: empty when none is attached. */
    function Watchers(): set<AchievementObserver>
      reads this`observer
    {
      if observer != null then {observer} else {}
    }

    /** Every object the entity owns or points to. */
    function Parts(): set<object>
      reads this`observer
    {
      Slots() + (if observer != null then {observer as object} else {})
    }

    /** What every constructor leaves, apart from the kind, the variant and the table. */
    ghost predicate Pristine()
      reads this, positionComp, sheet
    {
      id == 0 && !deleted && !isSpriteSheet && positionComp.position == Origin &&
      boundingBox == DefaultRect && bboxSize == Origin &&
      textureSize == IntVec(0, 0) && spriteScale == Vec2(1.0, 1.0) &&
      !attacking && !shouting && wood == 0 && shootCooldown == 0.0 && observer == null &&
      sheet.State() == Blank && sheet.direction == Right
    }

    /** `Entity()`: kind UNDEFINED, holding only its position component. */
    constructor ()
      ensures kind == UNDEFINED && variant == BaseClass && Pristine() && Valid() && Shape()
      ensures componentSet == {POSITION} && components == map[POSITION := PositionRef(positionComp)]
      ensures fresh(Parts()) && fresh(Slots())
    {
      kind, variant := UNDEFINED, BaseClass;
      var p := new PositionComponent();
      positionComp := p;
      sheet := new SpriteSheet();
      velocityComp, healthComp, ttlComp, colliderComp, inputComp := null, null, null, null, null;
      id, deleted, isSpriteSheet := 0, false, false;
      boundingBox, bboxSize := DefaultRect, Origin;
      textureSize, spriteScale := IntVec(0, 0), Vec2(1.0, 1.0);
      attacking, shouting, wood, shootCooldown, observer := false, false, 0, 0.0, null;
      components := Store(map[], PositionRef(p));
      componentSet := {POSITION};
      new;
    }

    /** `Entity(et)`: like the default constructor, with the given kind. */
    constructor Typed(et: EntityType)
      ensures kind == et && variant == BaseClass && Pristine() && Valid() && Shape()
      ensures componentSet == {POSITION} && components == map[POSITION := PositionRef(positionComp)]
      ensures fresh(Parts()) && fresh(Slots())
    {
      kind, variant := et, BaseClass;
      var p := new PositionComponent();
      positionComp := p;
      sheet := new SpriteSheet();
      velocityComp, healthComp, ttlComp, colliderComp, inputComp := null, null, null, null, null;
      id, deleted, isSpriteSheet := 0, false, false;
      boundingBox, bboxSize := DefaultRect, Origin;
      textureSize, spriteScale := IntVec(0, 0), Vec2(1.0, 1.0);
      attacking, shouting, wood, shootCooldown, observer := false, false, 0, 0.0, null;
      components := Store(map[], PositionRef(p));
      componentSet := {POSITION};
      new;
    }

    /** `Potion()`: a POTION that adds no component. */
    constructor Potion()
      ensures kind == POTION && variant == PotionClass && Pristine() && Valid() && Shape()
      ensures componentSet == {POSITION} && components == map[POSITION := PositionRef(positionComp)]
      ensures healthComp == null
      ensures fresh(Parts()) && fresh(Slots())
    {
      kind, variant := POTION, PotionClass;
      var p := new PositionComponent();
      positionComp := p;
      sheet := new SpriteSheet();
      velocityComp, healthComp, ttlComp, colliderComp, inputComp := null, null, null, null, null;
      id, deleted, isSpriteSheet := 0, false, false;
      boundingBox, bboxSize := DefaultRect, Origin;
      textureSize, spriteScale := IntVec(0, 0), Vec2(1.0, 1.0);
      attacking, shouting, wood, shootCooldown, observer := false, false, 0, 0.0, null;
      components := Store(map[], PositionRef(p));
      componentSet := {POSITION};
      new;
    }

    /** `Log()`: a LOG that adds no component. */
    constructor Log()
      ensures kind == LOG && variant == LogClass && Pristine() && Valid() && Shape()
      ensures componentSet == {POSITION} && components == map[POSITION := PositionRef(positionComp)]
      ensures healthComp == null
      ensures fresh(Parts()) && fresh(Slots())
    {
      kind, variant := LOG, LogClass;
      var p := new PositionComponent();
      positionComp := p;
      sheet := new SpriteSheet();
      velocityComp, healthComp, ttlComp, colliderComp, inputComp := null, null, null, null, null;
      id, deleted, isSpriteSheet := 0, false, false;
      boundingBox, bboxSize := DefaultRect, Origin;
      textureSize, spriteScale := IntVec(0, 0), Vec2(1.0, 1.0);
      attacking, shouting, wood, shootCooldown, observer := false, false, 0, 0.0, null;
      components := Store(map[], PositionRef(p));
      componentSet := {POSITION};
      new;
    }

    /** `Fire()`: a TTL of 150 frames added first, then a velocity of speed 200. */
    constructor Fire()
      ensures kind == FIRE && variant == FireClass && Pristine() && Valid() && Shape()
      ensures componentSet == {POSITION, TTL, VELOCITY}
      ensures components == map[POSITION := PositionRef(positionComp), TTL := TTLRef(ttlComp),
        VELOCITY := VelocityRef(velocityComp)]
      ensures ttlComp.ttl == FireTTL
      ensures velocityComp.velocity == Origin && velocityComp.speed == FireMoveSpeed
      ensures fresh(Parts()) && fresh(Slots())
    {
      kind, variant := FIRE, FireClass;
      var p, sh, t, v := NewFireParts();
      positionComp, sheet := p, sh;
      velocityComp, healthComp, ttlComp, colliderComp, inputComp := v, null, t, null, null;
      id, deleted, isSpriteSheet := 0, false, false;
      boundingBox, bboxSize := DefaultRect, Origin;
      textureSize, spriteScale := IntVec(0, 0), Vec2(1.0, 1.0);
      attacking, shouting, wood, shootCooldown, observer := false, false, 0, 0.0, null;
      components := Store(Store(Store(map[], PositionRef(p)), TTLRef(t)), VelocityRef(v));
      componentSet := {POSITION} + {TTL} + {VELOCITY};
      new;
    }

    /** `Mushroom()`: health 30 of 30, velocity of speed 50, and an empty collider, added in that order. */
    constructor Mushroom()
      ensures kind == MUSHROOM && variant == MushroomClass && Pristine() && Valid() && Shape()
      ensures componentSet == {POSITION, HEALTH, VELOCITY, COLLIDER}
      ensures components == map[POSITION := PositionRef(positionComp), HEALTH := HealthRef(healthComp),
        VELOCITY := VelocityRef(velocityComp), COLLIDER := ColliderRef(colliderComp)]
      ensures healthComp.currentHealth == MushroomHealth && healthComp.maxHealth == MushroomHealth
      ensures velocityComp.velocity == Origin && velocityComp.speed == MushroomSpeed
      ensures colliderComp.boundingBox == DefaultRect
      ensures fresh(Parts()) && fresh(Slots())
    {
      kind, variant := MUSHROOM, MushroomClass;
      var p, sh, h, v, c := NewMushroomParts();
      positionComp, sheet := p, sh;
      velocityComp, healthComp, ttlComp, colliderComp, inputComp := v, h, null, c, null;
      id, deleted, isSpriteSheet := 0, false, false;
      boundingBox, bboxSize := DefaultRect, Origin;
      textureSize, spriteScale := IntVec(0, 0), Vec2(1.0, 1.0);
      attacking, shouting, wood, shootCooldown, observer := false, false, 0, 0.0, null;
      components := Store(Store(Store(Store(map[], PositionRef(p)), HealthRef(h)), VelocityRef(v)), ColliderRef(c));
      componentSet := {POSITION} + {HEALTH} + {VELOCITY} + {COLLIDER};
      new;
    }

    /** `Player()`: velocity of speed 1, the input component, then health 80 of 100. */
    constructor Player()
      ensures kind == PLAYER && variant == PlayerClass && Pristine() && Valid() && Shape()
      ensures componentSet == {POSITION, VELOCITY, INPUT, HEALTH}
      ensures components == map[POSITION := PositionRef(positionComp), VELOCITY := VelocityRef(velocityComp),
        INPUT := InputRef(inputComp), HEALTH := HealthRef(healthComp)]
      ensures velocityComp.velocity == Origin && velocityComp.speed == PlayerSpeed
      ensures healthComp.currentHealth == StartingHealth && healthComp.maxHealth == MaxHealth
      ensures inputComp.handler.inputMode == Inputs.WASD && !inputComp.handler.togglePressed
      ensures fresh(Parts()) && fresh(Slots())
    {
      kind, variant := PLAYER, PlayerClass;
      var p, sh, v, i, h := NewPlayerParts();
      positionComp, sheet := p, sh;
      velocityComp, healthComp, ttlComp, colliderComp, inputComp := v, h, null, null, i;
      id, deleted, isSpriteSheet := 0, false, false;
      boundingBox, bboxSize := DefaultRect, Origin;
      textureSize, spriteScale := IntVec(0, 0), Vec2(1.0, 1.0);
      attacking, shouting, wood, shootCooldown, observer := false, false, 0, 0.0, null;
      components := Store(Store(Store(Store(map[], PositionRef(p)), VelocityRef(v)), InputRef(i)), HealthRef(h));
      componentSet := {POSITION} + {VELOCITY} + {INPUT} + {HEALTH};
      new;
    }

    // -------------------------------------------------------------------
    // The component table

    /** Turns on the component's bit and stores it under its kind, replacing any previous one. */
    method AddComponent(c: Component)
      modifies this`componentSet, this`components
      ensures componentSet == old(componentSet) + {c.ID()}
      ensures components == Store(old(components), c)
      ensures GetComponent(c.ID()) == Some(c)
      ensures forall k | k != c.ID() :: GetComponent(k) == old(GetComponent(k))
      ensures old(Valid()) && Owned(c) ==> Valid()
    {
      componentSet := componentSet + {c.ID()};
      components := Store(components, c);
    }

    /** `getComponent(k)`: the stored component when kind k is present, else nothing. */
    function GetComponent(k: ComponentID): (r: Option<Component>)
      reads this`components
      ensures r.Some? <==> k in components
      ensures r.Some? ==> r.value in components.Values
    {
      if k in components then Some(components[k]) else None
    }

    /** `hasComponent(mask)`: every bit of the mask is on. */
    predicate HasComponent(mask: Bitmask)
      reads this`componentSet
    {
      Contains(componentSet, mask)
    }

    /** `getTTLComponent()`: only a Fire overrides the null default. */
    function GetTTLComponent(): (r: TTLComponent?)
      ensures r != null <==> variant == FireClass && ttlComp != null
      ensures r != null ==> r == ttlComp
    {
      if variant == FireClass then ttlComp else null
    }

    method SetID(i: EntityID)
      modifies this`id
      ensures id == i
    {
      id := i;
    }

    method DeleteEntity()
      modifies this`deleted
      ensures deleted
    {
      deleted := true;
    }

    // -------------------------------------------------------------------
    // Position, texture and bounding box

    method SetPosition(x: real, y: real)
      modifies positionComp
      ensures positionComp.position == Vec2(x, y)
    {
      positionComp.SetPosition(x, y);
    }

    function GetPosition(): Vec2
      reads positionComp
    {
      positionComp.position
    }

    /** The sprite-sheet frame size once a sheet is in use, else the plain texture's size. */
    function GetTextureSize(): (r: IntVec)
      reads this`isSpriteSheet, this`textureSize, sheet`spriteSize
    {
      if isSpriteSheet then sheet.spriteSize else textureSize
    }

    /** The sprite-sheet scale once a sheet is in use, else the plain sprite's scale. */
    function GetSpriteScale(): (r: Vec2)
      reads this`isSpriteSheet, this`spriteScale, sheet`spriteScale
    {
      if isSpriteSheet then sheet.spriteScale else spriteScale
    }

    /**
     * The base `Entity::update`: an entity drawn from a sprite sheet gives
     * the sheet its time step; then the bounding box follows the position.
     */
    method BaseUpdate(elapsed: real, advance: Animator)
      modifies sheet`animations, this`boundingBox
      ensures sheet.State() == Animated(old(sheet.State()), isSpriteSheet, advance, elapsed)
      ensures boundingBox == SpanFrom(positionComp.position, bboxSize)
    {
      if isSpriteSheet {
        sheet.Update(elapsed, advance);
      }
      RefreshBounds();
    }

    /** The bounding-box refresh that ends every `Entity::update`. */
    method RefreshBounds()
      modifies this`boundingBox
      ensures boundingBox == SpanFrom(positionComp.position, bboxSize)
    {
      var pos := positionComp.position;
      boundingBox := Rect(pos, Vec2(pos.x + bboxSize.x, pos.y + bboxSize.y));
    }

    /**
     * `init(textureFile, scale)`: loads the texture (`textures` maps the image
     * files that load to their sizes; a failed load keeps the old texture),
     * scales the sprite and sizes the bounding box. Potions and Logs also
     * place their fixed bounding box here.
     */
    method Init(textureFile: string, scale: real, textures: map<string, IntVec>)
      modifies this`textureSize, this`spriteScale, this`bboxSize, this`boundingBox
      ensures textureSize == if textureFile in textures then textures[textureFile] else old(textureSize)
      ensures spriteScale == Vec2(scale, scale)
      ensures bboxSize == Vec2(textureSize.x as real * scale, textureSize.y as real * scale)
      ensures variant == PotionClass || variant == LogClass ==>
        boundingBox == SpanFrom(positionComp.position, bboxSize)
      ensures variant != PotionClass && variant != LogClass ==> boundingBox == old(boundingBox)
      ensures !isSpriteSheet ==> GetTextureSize() == textureSize && GetSpriteScale() == Vec2(scale, scale)
      ensures isSpriteSheet ==> GetTextureSize() == old(GetTextureSize()) && GetSpriteScale() == old(GetSpriteScale())
    {
      if textureFile in textures {
        textureSize := textures[textureFile];
      }
      spriteScale := Vec2(scale, scale);
      bboxSize := Vec2(textureSize.x as real * spriteScale.x, textureSize.y as real * spriteScale.y);
      if variant == PotionClass || variant == LogClass {
        RefreshBounds();
      }
    }

    /**
     * `initSpriteSheet(file)`: loads the sheet (a load that throws ends here),
     * switches to it, starts the looping Idle animation and sizes the
     * bounding box from the frame size and sheet scale.
     */
    method InitSpriteSheet(file: Option<seq<string>>, textures: set<string>) returns (status: Status)
      modifies sheet, this`isSpriteSheet, this`bboxSize
      ensures file.None? ==> status.Failure? && sheet.State() == old(sheet.State())
      ensures file.Some? ==>
        var loaded := Load(Released(old(sheet.State())), file.value, textures);
        (status.Success? <==> loaded.ok) &&
        (status.Success? ==> sheet.State() == SelectAnimation(loaded.state, "Idle", true, true).state) &&
        (status.Failure? ==> sheet.State() == loaded.state)
      ensures status.Success? ==> isSpriteSheet
      ensures status.Success? ==> GetTextureSize() == sheet.spriteSize && GetSpriteScale() == sheet.spriteScale
      ensures status.Success? ==>
        bboxSize == Vec2(sheet.spriteSize.x as real * sheet.spriteScale.x, sheet.spriteSize.y as real * sheet.spriteScale.y)
      ensures status.Failure? ==> isSpriteSheet == old(isSpriteSheet) && bboxSize == old(bboxSize)
      ensures sheet.direction == old(sheet.direction)
    {
      status := sheet.LoadSheet(file, textures);
      if status.Failure? {
        return;
      }
      isSpriteSheet := true;
      var _ := sheet.SetAnimation("Idle", true, true);
      bboxSize := Vec2(sheet.spriteSize.x as real * sheet.spriteScale.x, sheet.spriteSize.y as real * sheet.spriteScale.y);
    }

    // -------------------------------------------------------------------
    // Per-class updates (the Player's is below)

    /** `Fire::update`: moves by its own velocity, then the base update. */
    method FireUpdate(elapsed: real, advance: Animator)
      requires variant == FireClass && Shape()
      modifies positionComp, sheet`animations, this`boundingBox
      ensures positionComp.position == Integrate(old(positionComp.position), velocityComp.velocity, velocityComp.speed, elapsed)
      ensures sheet.State() == Animated(old(sheet.State()), isSpriteSheet, advance, elapsed)
      ensures boundingBox == SpanFrom(positionComp.position, bboxSize)
    {
      velocityComp.Update(positionComp, elapsed);
      BaseUpdate(elapsed, advance);
    }

    /**
     * `Mushroom::update`: with a player, heads for it (see `ChaseVelocity`);
     * without one the velocity is left as it was. Then the base update.
     */
    method MushroomUpdate(playerPos: Option<Vec2>, elapsed: real, normalise: Vec2 -> Vec2, advance: Animator)
      requires variant == MushroomClass && Shape()
      modifies velocityComp, sheet`animations, this`boundingBox
      ensures playerPos.None? ==> velocityComp.velocity == old(velocityComp.velocity)
      ensures playerPos.Some? ==> velocityComp.velocity == ChaseVelocity(positionComp.position, playerPos.value, normalise)
      ensures sheet.State() == Animated(old(sheet.State()), isSpriteSheet, advance, elapsed)
      ensures boundingBox == SpanFrom(positionComp.position, bboxSize)
    {
      if playerPos.Some? {
        var dir := ChaseVelocity(positionComp.position, playerPos.value, normalise);
        velocityComp.SetVelocity(dir.x, dir.y);
      }
      BaseUpdate(elapsed, advance);
    }

    // -------------------------------------------------------------------
    // Player

    /** The player state `PlayerRules.PlayerStep` describes. */
    function PState(): PlayerState
      reads this`attacking, this`shouting, this`wood, this`shootCooldown, sheet`animations, sheet`current, sheet`texture,
        sheet`spriteSize, sheet`spriteScale, sheet`animType, sheet`direction
    {
      PlayerState(sheet.State(), sheet.direction, attacking, shouting, wood, shootCooldown)
    }

    method SetAttacking(a: bool)
      modifies this`attacking
      ensures attacking == a
    {
      attacking := a;
    }

    method SetShouting(s: bool)
      modifies this`shouting
      ensures shouting == s
    {
      shouting := s;
    }

    method SetObserver(obs: AchievementObserver?)
      modifies this`observer
      ensures observer == obs
    {
      observer := obs;
    }

    /** `addWood(w)`: adds and clamps to [0, MaxWood]. */
    method AddWood(w: int)
      modifies this`wood
      ensures wood == Clamp(old(wood) + w, MaxWood)
    {
      wood := wood + w;
      if wood > MaxWood {
        wood := MaxWood;
      }
      if wood < 0 {
        wood := 0;
      }
    }

    /** Whether the current animation exists and is in its action frames. */
    predicate AnimInAction()
      reads sheet`animations, sheet`current
    {
      sheet.current.Some? && sheet.current.value in sheet.animations && sheet.animations[sheet.current.value].inAction
    }

    /**
     * `handlePotionCollision`: a Potion restores its health (clamped), the
     * observer counts it, and the potion is deleted. Anything else is ignored.
     */
    method HandlePotionCollision(potion: Entity) returns (unlocked: bool)
      requires variant == PlayerClass
      modifies Healths()`currentHealth, Watchers()`potionsCollected, potion`deleted
      ensures potion.variant == PotionClass && healthComp != null ==>
        healthComp.currentHealth == Clamp(old(healthComp.currentHealth) + PotionHealth, healthComp.maxHealth)
      ensures potion.variant == PotionClass && healthComp != null ==> potion.deleted
      ensures potion.variant == PotionClass && healthComp != null && observer != null ==>
        observer.potionsCollected == old(observer.potionsCollected) + 1
      ensures unlocked <==>
        potion.variant == PotionClass && healthComp != null && observer != null && observer.potionsCollected == RequiredPotions
      ensures potion.variant != PotionClass || healthComp == null ==> potion.deleted == old(potion.deleted)
      ensures (potion.variant != PotionClass || healthComp == null) && healthComp != null ==>
        healthComp.currentHealth == old(healthComp.currentHealth)
      ensures (potion.variant != PotionClass || healthComp == null) && observer != null ==>
        observer.potionsCollected == old(observer.potionsCollected)
    {
      unlocked := false;
      if potion.variant == PotionClass && healthComp != null {
        healthComp.ChangeHealth(PotionHealth);
        if observer != null {
          unlocked := observer.OnPotionCollected();
        }
        potion.DeleteEntity();
      }
    }

    /**
     * `handleLogCollision`: only while attacking with the current animation
     * in action does a Log give its wood (clamped) and get deleted.
     */
    method HandleLogCollision(log: Entity)
      requires variant == PlayerClass
      modifies this`wood, log`deleted
      ensures var hit := attacking && AnimInAction() && log.variant == LogClass;
        (hit ==> wood == Clamp(old(wood) + LogWood, MaxWood) && log.deleted) &&
        (!hit ==> wood == old(wood) && log.deleted == old(log.deleted))
    {
      if !attacking || !AnimInAction() {
        return;
      }
      if log.variant == LogClass {
        AddWood(LogWood);
        log.DeleteEntity();
      }
    }

    /**
     * `createFire`: a new Fire at the player's position plus half the
     * texture size, with its texture loaded and a unit velocity in the
     * direction the sprite faces.
     */
    method CreateFire(textures: map<string, IntVec>) returns (f: Entity)
      requires variant == PlayerClass
      ensures fresh(f) && fresh(f.Parts()) && NewFire(f, FireOrigin(GetPosition(), GetTextureSize()), sheet.direction)
      ensures f.id == 0 && !f.isSpriteSheet
    {
      f := new Entity.Fire();
      var pos := FireOrigin(GetPosition(), GetTextureSize());
      f.Init(FireTexture, 1.0, textures);
      f.SetPosition(pos.x, pos.y);
      var v := FireVelocity(sheet.direction);
      f.velocityComp.SetVelocity(v.x, v.y);
    }

    /**
     * `positionSprite(row, col, spriteWH, tileScale)`: places the sprite in
     * its cell and stops the player.
     */
    method PositionSprite(row: int, col: int, spriteWH: int, tileScale: real)
      requires variant == PlayerClass && Shape()
      modifies positionComp, velocityComp
      ensures positionComp.position == SpritePlacement(row, col, spriteWH, tileScale, GetSpriteScale(), GetTextureSize())
      ensures velocityComp.velocity == Origin
    {
      var p := SpritePlacement(row, col, spriteWH, tileScale, GetSpriteScale(), GetTextureSize());
      SetPosition(p.x, p.y);
      velocityComp.SetVelocity(0.0, 0.0);
    }

    /** The animation selection that opens `Player::update` (`AnimStep`). */
    method SelectPlayerAnimation()
      requires variant == PlayerClass && Shape()
      modifies sheet
      ensures PState() == AnimStep(old(PState()), velocityComp.velocity)
    {
      var choice := ChooseAnimation(attacking, shouting, velocityComp.velocity);
      var _ := sheet.SetAnimation(choice.name, true, choice.loop);
      if choice.facing.Some? {
        sheet.SetSpriteDirection(choice.facing.value);
      }
    }

    /**
     * The cooldown tick and the shot of `Player::update` (`ShootStep`):
     * whether a fire is due, with the shout achievement report.
     */
    method Shoot(elapsed: real) returns (spawned: bool, unlocked: bool)
      requires variant == PlayerClass
      modifies this`shouting, this`wood, this`shootCooldown, Watchers()`shoutsPerformed
      ensures var r := ShootStep(old(PState()), elapsed);
        PState() == r.state && spawned == r.spawned
      ensures observer != null ==> observer.shoutsPerformed == old(observer.shoutsPerformed) + (if spawned then 1 else 0)
      ensures unlocked <==> spawned && observer != null && observer.shoutsPerformed == RequiredShouts
    {
      TickCooldown(elapsed);
      spawned, unlocked := false, false;
      if shouting && InAction(sheet.State()) && wood >= ShootingCost && shootCooldown <= 0.0 {
        spawned := true;
        unlocked := PayForShot();
      }
    }

    /** The cooldown counts down by the frame time while it is positive. */
    method TickCooldown(elapsed: real)
      modifies this`shootCooldown
      ensures shootCooldown == if old(shootCooldown) > 0.0 then old(shootCooldown) - elapsed else old(shootCooldown)
    {
      if shootCooldown > 0.0 {
        shootCooldown := shootCooldown - elapsed;
      }
    }

    /** What a shot costs: the wood, the cooldown restart, the shout flag cleared and the report to the observer. */
    method PayForShot() returns (unlocked: bool)
      modifies this`wood, this`shootCooldown, this`shouting, Watchers()`shoutsPerformed
      ensures wood == old(wood) - ShootingCost && shootCooldown == ShootCooldownTime && !shouting
      ensures observer != null ==> observer.shoutsPerformed == old(observer.shoutsPerformed) + 1
      ensures unlocked <==> observer != null && observer.shoutsPerformed == RequiredShouts
    {
      wood := wood - ShootingCost;
      shootCooldown := ShootCooldownTime;
      shouting := false;
      unlocked := false;
      if observer != null {
        unlocked := observer.OnShoutPerformed();
      }
    }

    /** The flag reset of `Player::update` once the animation has finished (`FinishStep`). */
    method ClearFinishedActions()
      modifies this`attacking, this`shouting
      ensures PState() == FinishStep(old(PState()))
    {
      var cur := sheet.CurrentAnim();
      if cur.Some? && !cur.value.playing {
        attacking := false;
        shouting := false;
      }
    }

    /**
     * `Player::update`. The step follows `PlayerStep` on the velocity the
     * player has; the fire to add to the game, if any, is returned (the game
     * adds it, as `createFire` is followed by `addEntity`) together with the
     * shout achievement report. The fire is allocated after the flag reset
     * rather than before it: `createFire` reads the position, the texture
     * size and the facing, none of which the reset writes, so it is the same
     * fire.
     */
    method PlayerUpdate(elapsed: real, textures: map<string, IntVec>, advance: Animator)
      returns (fire: Entity?, unlocked: bool)
      requires variant == PlayerClass && Shape()
      modifies sheet, this`attacking, this`shouting, this`wood, this`shootCooldown, this`boundingBox, Watchers()`shoutsPerformed
      ensures var r := PlayerFrame(old(PState()), velocityComp.velocity, elapsed, isSpriteSheet, advance);
        PState() == r.state && (fire != null <==> r.spawned)
      ensures fire != null ==>
        fresh(fire) && fresh(fire.Parts()) && NewFire(fire, FireOrigin(GetPosition(), GetTextureSize()), PState().facing)
      ensures observer != null ==> observer.shoutsPerformed == old(observer.shoutsPerformed) + (if fire != null then 1 else 0)
      ensures unlocked <==> fire != null && observer != null && observer.shoutsPerformed == RequiredShouts
      ensures boundingBox == SpanFrom(positionComp.position, bboxSize)
    {
      SelectPlayerAnimation();
      var spawned;
      spawned, unlocked := Shoot(elapsed);
      FinishUpdate(elapsed, advance);
      fire := null;
      if spawned {
        fire := CreateFire(textures);
      }
    }

    /** The end of `Player::update`: the flag reset, then the base `Entity::update`. */
    method FinishUpdate(elapsed: real, advance: Animator)
      modifies this`attacking, this`shouting, sheet`animations, this`boundingBox
      ensures var q := FinishStep(old(PState()));
        PState() == q.(sheet := Animated(q.sheet, isSpriteSheet, advance, elapsed))
      ensures boundingBox == SpanFrom(positionComp.position, bboxSize)
    {
      ClearFinishedActions();
      BaseUpdate(elapsed, advance);
    }

    /** The health component, as a set: empty when the class has none. */
    function Healths(): set<HealthComponent>
    {
      if healthComp != null then {healthComp} else {}
    }

    /** The velocity component, as a set: empty when the class has none. */
    function Velocities(): set<VelocityComponent>
    {
      if velocityComp != null then {velocityComp} else {}
    }

    /**
     * The virtual `update(game, elapsed)`: the base class gives its sheet
     * its time step (`advance`, when it draws from one) and refreshes its
     * bounding box; Potion and Log do nothing; a Fire moves by its own
     * velocity first; a Mushroom first heads for the player's position
     * (`playerPos`, none without a player); the Player runs its own update,
     * which may hand back a Fire for the game to add. All but Potion and Log
     * end with the base update.
     */
    method Update(playerPos: Option<Vec2>, elapsed: real, textures: map<string, IntVec>, normalise: Vec2 -> Vec2,
                  advance: Animator) returns (fire: Entity?, unlocked: bool)
      requires Shape()
      modifies positionComp, sheet, Velocities(), this`boundingBox, this`attacking, this`shouting, this`wood,
        this`shootCooldown, Watchers()`shoutsPerformed
      ensures variant == PotionClass || variant == LogClass ==> boundingBox == old(boundingBox)
      ensures variant != PotionClass && variant != LogClass ==> boundingBox == SpanFrom(positionComp.position, bboxSize)
      ensures variant == FireClass ==>
        positionComp.position == Integrate(old(positionComp.position), velocityComp.velocity, velocityComp.speed, elapsed)
      ensures variant != FireClass ==> positionComp.position == old(positionComp.position)
      ensures variant == MushroomClass ==>
        velocityComp.velocity == if playerPos.Some? then ChaseVelocity(positionComp.position, playerPos.value, normalise)
          else old(velocityComp.velocity)
      ensures variant != MushroomClass && velocityComp != null ==> velocityComp.velocity == old(velocityComp.velocity)
      ensures variant == PlayerClass ==> var r := PlayerFrame(old(PState()), velocityComp.velocity, elapsed, isSpriteSheet, advance);
        PState() == r.state && (fire != null <==> r.spawned)
      ensures variant != PlayerClass ==> fire == null && !unlocked && PState().(sheet := old(PState()).sheet) == old(PState())
      ensures variant == PotionClass || variant == LogClass ==> sheet.State() == old(sheet.State())
      ensures variant != PotionClass && variant != LogClass && variant != PlayerClass ==>
        sheet.State() == Animated(old(sheet.State()), isSpriteSheet, advance, elapsed)
      ensures fire != null ==>
        fresh(fire) && fresh(fire.Parts()) && NewFire(fire, FireOrigin(GetPosition(), GetTextureSize()), PState().facing)
      ensures observer != null ==> observer.shoutsPerformed == old(observer.shoutsPerformed) + (if fire != null then 1 else 0)
      ensures unlocked <==> fire != null && observer != null && observer.shoutsPerformed == RequiredShouts
    {
      fire, unlocked := null, false;
      match variant
      case BaseClass => BaseUpdate(elapsed, advance);
      case PotionClass =>
      case LogClass =>
      case FireClass => FireUpdate(elapsed, advance);
      case MushroomClass => MushroomUpdate(playerPos, elapsed, normalise, advance);
      case PlayerClass => fire, unlocked := PlayerUpdate(elapsed, textures, advance);
    }
  }

  /** The components a Fire allocates, with their initial values. */
  method NewFireParts() returns (p: PositionComponent, s: SpriteSheet, t: TTLComponent, v: VelocityComponent)
    ensures fresh(p) && fresh(s) && fresh(t) && fresh(v)
    ensures p.position == Origin && s.State() == Blank && s.direction == Right
    ensures t.ttl == FireTTL && v.velocity == Origin && v.speed == FireMoveSpeed
  {
    p := new PositionComponent();
    s := new SpriteSheet();
    t := new TTLComponent(FireTTL);
    v := new VelocityComponent(FireMoveSpeed);
  }

  /** The components a Mushroom allocates, with their initial values. */
  method NewMushroomParts() returns (p: PositionComponent, s: SpriteSheet, h: HealthComponent, v: VelocityComponent,
    c: ColliderComponent)
    ensures fresh(p) && fresh(s) && fresh(h) && fresh(v) && fresh(c)
    ensures p.position == Origin && s.State() == Blank && s.direction == Right
    ensures h.currentHealth == MushroomHealth && h.maxHealth == MushroomHealth
    ensures v.velocity == Origin && v.speed == MushroomSpeed && c.boundingBox == DefaultRect
  {
    p := new PositionComponent();
    s := new SpriteSheet();
    h := new HealthComponent(MushroomHealth, MushroomHealth);
    v := new VelocityComponent(MushroomSpeed);
    c := new ColliderComponent(DefaultRect);
  }

  /** The components a Player allocates, with their initial values. */
  method NewPlayerParts() returns (p: PositionComponent, s: SpriteSheet, v: VelocityComponent,
    i: Inputs.PlayerInputComponent, h: HealthComponent)
    ensures fresh(p) && fresh(s) && fresh(v) && fresh(i) && fresh(i.handler) && fresh(h)
    ensures p.position == Origin && s.State() == Blank && s.direction == Right
    ensures v.velocity == Origin && v.speed == PlayerSpeed
    ensures i.handler.inputMode == Inputs.WASD && !i.handler.togglePressed
    ensures h.currentHealth == StartingHealth && h.maxHealth == MaxHealth
  {
    p := new PositionComponent();
    s := new SpriteSheet();
    v := new VelocityComponent(PlayerSpeed);
    i := new Inputs.PlayerInputComponent();
    h := new HealthComponent(StartingHealth, MaxHealth);
  }

  /**
   * A Fire as `createFire` leaves it: the Fire constructor's table and TTL,
   * not deleted, placed at `origin` and heading along `facing`.
   */
  ghost predicate NewFire(f: Entity, origin: Vec2, facing: Direction)
    reads f, f.ttlComp, f.positionComp, f.velocityComp
  {
    f.variant == FireClass && f.Shape() && f.Valid() && f.kind == FIRE && f.observer == null && !f.deleted &&
    f.componentSet == {POSITION, TTL, VELOCITY} && f.ttlComp.ttl == FireTTL &&
    f.positionComp.position == origin &&
    f.velocityComp.velocity == FireVelocity(facing) && f.velocityComp.speed == FireMoveSpeed
  }

  // ---------------------------------------------------------------------
  // Properties of the component table

  /** A stored component is found under the kind whose bit is on, and carries that kind. */
  lemma GetComponentMatchesBits(e: Entity, k: ComponentID)
    requires e.Valid()
    ensures e.GetComponent(k).Some? <==> k in e.componentSet
    ensures e.GetComponent(k).Some? ==> e.GetComponent(k).value.ID() == k
  {
  }

  /** Adding components only turns bits on, so a mask once contained stays contained. */
  lemma AddingKeepsMask(before: Bitmask, c: Component, mask: Bitmask)
    requires Contains(before, mask)
    ensures Contains(before + {c.ID()}, mask)
  {
    ContainsMonotone(before, {c.ID()}, mask);
  }
}
