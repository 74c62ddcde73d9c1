// The game object (Game.h, Game.cpp): its entity stores, id counter,
// system list, collision callbacks and the small state flags. The frame
// loops and level loading that drive it are in frames.dfy.

module Games {
  import opened Wrappers
  import opened Geometry
  import opened Components
  import opened Entities
  import opened PackedArrays
  import opened Boards
  import opened Systems
  import opened Observers

  /** The three entity-store strategies. */
  datatype ECSType = BIG_ARRAY | ARCHETYPES | PACKED_ARRAY

  datatype GameState = Menu | Playing

  /** A bucket of entities collected at insertion time because their bits contain the mask. */
  datatype Archetype = Archetype(entities: seq<Entity>, componentMask: Bitmask)

  /** The player methods `init` binds as collision callbacks, with the player each is bound to. */
  datatype Callback = PotionCallback(target: Entity) | LogCallback(target: Entity)

  const SpriteWH: int := 50
  const TileScale: real := 2.0
  const ItemScale: real := 1.0

  /** The constructor's default store strategy. */
  const DefaultECS: ECSType := BIG_ARRAY

  /** `EntityID` is a 32-bit unsigned integer, so the counter wraps at 2^32. */
  const IdModulus: int := 0x1_0000_0000

  /** The systems the constructor pushes, in order; TTL is pushed after the archetypes. */
  const GameSystems: seq<System> := [NewSystem(InputSystem), NewSystem(MovementSystem), NewSystem(ColliderSystem),
    NewSystem(GameplaySystem), NewSystem(PrintDebugSystem), NewSystem(TTLSystem)]

  /** The buckets the constructor creates: movable and drawable ones, in ARCHETYPES mode only. */
  function InitialArchetypes(t: ECSType): (r: seq<Archetype>)
    ensures t == ARCHETYPES ==> |r| == 2 && r[0].componentMask == {VELOCITY, POSITION} && r[1].componentMask == {GRAPHICS}
    ensures t != ARCHETYPES ==> r == []
    ensures forall i :: 0 <= i < |r| ==> r[i].entities == []
  {
    if t == ARCHETYPES then [Archetype([], {VELOCITY, POSITION}), Archetype([], {GRAPHICS})] else []
  }

  /** The pre-increment of the unsigned counter. */
  function NextId(c: EntityID): (n: EntityID)
    ensures c + 1 < IdModulus ==> n == c + 1
    ensures c + 1 == IdModulus ==> n == 0
  {
    (c + 1) % IdModulus
  }

  /** The ids handed out by k successive `addEntity` calls from counter c. */
  function IdsFrom(c: EntityID, k: nat): (ids: seq<EntityID>)
    ensures |ids| == k
    decreases k
  {
    if k == 0 then [] else [NextId(c)] + IdsFrom(NextId(c), k - 1)
  }

  /** Before the counter wraps, the k ids after c are c + 1, ..., c + k. */
  lemma {:induction false} IdsFromConsecutive(c: EntityID, k: nat)
    requires c + k < IdModulus
    ensures forall i :: 0 <= i < k ==> IdsFrom(c, k)[i] == c + 1 + i
    decreases k
  {
    if k > 0 {
      IdsFromConsecutive(NextId(c), k - 1);
      assert IdsFrom(c, k) == [c + 1] + IdsFrom(c + 1, k - 1);
    }
  }

  /**
   * From the constructor's counter 1, the first k ids (fewer than 2^32 - 1
   * of them) are 2, 3, ...: strictly increasing, so never reused, and never 0.
   */
  lemma GameIds(k: nat)
    requires k < IdModulus - 1
    ensures forall i :: 0 <= i < k ==> IdsFrom(1, k)[i] == i + 2
    ensures forall i, j :: 0 <= i < j < k ==> IdsFrom(1, k)[i] < IdsFrom(1, k)[j]
    ensures forall i :: 0 <= i < k ==> IdsFrom(1, k)[i] != 0
  {
    IdsFromConsecutive(1, k);
  }

  /** The (2^32 - 1)-th entity added gets id 0, the id every entity is constructed with. */
  lemma CounterWraps()
    ensures IdsFrom(1, IdModulus - 1)[IdModulus - 2] == 0
  {
    IdsFromConsecutive(1, IdModulus - 2);
    assert IdsFrom(1, IdModulus - 1)[..IdModulus - 2] == IdsFrom(1, IdModulus - 2) by {
      IdsFromPrefix(1, IdModulus - 2, 1);
    }
    IdsFromLast(1, IdModulus - 2);
  }

  /** One more call appends one more id. */
  lemma {:induction false} IdsFromPrefix(c: EntityID, k: nat, m: nat)
    ensures IdsFrom(c, k + m)[..k] == IdsFrom(c, k)
    decreases k
  {
    if k > 0 {
      IdsFromPrefix(NextId(c), k - 1, m);
    }
  }

  /** The (k+1)-th id after c is the successor of the k-th. */
  lemma {:induction false} IdsFromLast(c: EntityID, k: nat)
    requires k > 0 && c + k < IdModulus
    ensures IdsFrom(c, k + 1)[k] == NextId(IdsFrom(c, k)[k - 1])
    decreases k
  {
    if k > 1 {
      IdsFromLast(NextId(c), k - 1);
    } else {
      assert IdsFrom(c, 2) == [NextId(c), NextId(NextId(c))];
    }
  }

  /** One bucket after `addEntity(e)`: e is appended when e's bits contain the bucket's mask. */
  function AddToBucket(a: Archetype, bits: Bitmask, e: Entity): Archetype
  {
    if Contains(bits, a.componentMask) then a.(entities := a.entities + [e]) else a
  }

  /** The buckets after `addEntity(e)`, each treated by `AddToBucket`. */
  function Bucketed(archs: seq<Archetype>, bits: Bitmask, e: Entity): (r: seq<Archetype>)
    ensures |r| == |archs|
    decreases |archs|
  {
    if archs == [] then [] else Bucketed(archs[..|archs| - 1], bits, e) + [AddToBucket(archs[|archs| - 1], bits, e)]
  }

  /** Treating bucket `i` next extends the buckets treated before it by one. */
  lemma BucketedStep(archs: seq<Archetype>, i: nat, bits: Bitmask, e: Entity)
    requires i < |archs|
    ensures Bucketed(archs[..i], bits, e) + archs[i..] ==
      (Bucketed(archs[..i + 1], bits, e) + archs[i + 1..])[i := archs[i]]
    ensures Bucketed(archs[..i + 1], bits, e)[i] == AddToBucket(archs[i], bits, e)
  {
    assert archs[..i + 1][..i] == archs[..i];
    assert archs[i..] == [archs[i]] + archs[i + 1..];
  }

  /** Bucketing keeps the masks, and adds e to a bucket exactly when e's bits contain its mask. */
  lemma {:induction false} BucketedEntries(archs: seq<Archetype>, bits: Bitmask, e: Entity)
    ensures forall i :: 0 <= i < |archs| ==> Bucketed(archs, bits, e)[i] == AddToBucket(archs[i], bits, e)
    decreases |archs|
  {
    if archs != [] {
      BucketedEntries(archs[..|archs| - 1], bits, e);
    }
  }

  /** Every member of a bucket after bucketing was already in it or is e, which joined iff its bits contain the mask. */
  lemma BucketedMembership(archs: seq<Archetype>, bits: Bitmask, e: Entity, i: nat, x: Entity)
    requires i < |archs|
    ensures Bucketed(archs, bits, e)[i].componentMask == archs[i].componentMask
    ensures x in Bucketed(archs, bits, e)[i].entities <==>
      x in archs[i].entities || (x == e && bits >= archs[i].componentMask)
  {
    BucketedEntries(archs, bits, e);
  }

  ghost function Elements(s: seq<Entity>): set<Entity>
  {
    set x | x in s
  }

  /** The members of all buckets. */
  ghost function BucketMembers(archs: seq<Archetype>): set<Entity>
    decreases |archs|
  {
    if archs == [] then {} else BucketMembers(archs[..|archs| - 1]) + Elements(archs[|archs| - 1].entities)
  }

  /** Buckets that are all empty have no members. */
  lemma {:induction false} BucketMembersEmpty(archs: seq<Archetype>)
    requires forall i :: 0 <= i < |archs| ==> archs[i].entities == []
    ensures BucketMembers(archs) == {}
    decreases |archs|
  {
    if archs != [] {
      BucketMembersEmpty(archs[..|archs| - 1]);
      assert Elements(archs[|archs| - 1].entities) == {};
    }
  }

  /** Bucketing adds at most e to the bucket members and removes none. */
  lemma {:induction false} BucketMembersAdd(archs: seq<Archetype>, bits: Bitmask, e: Entity)
    ensures BucketMembers(archs) <= BucketMembers(Bucketed(archs, bits, e)) <= BucketMembers(archs) + {e}
    decreases |archs|
  {
    if archs != [] {
      BucketMembersAdd(archs[..|archs| - 1], bits, e);
      assert Bucketed(archs, bits, e)[..|archs| - 1] == Bucketed(archs[..|archs| - 1], bits, e);
    }
  }

  /** Every entity of s keeps its component table consistent and holds its class's pointers. */
  ghost predicate Healthy(s: set<Entity>)
    reads s`componentSet, s`components
  {
    (forall e {:trigger e.Valid()} | e in s :: e.Valid()) && (forall e {:trigger e.Shape()} | e in s :: e.Shape())
  }

  lemma HealthyAdd(s: set<Entity>, e: Entity)
    requires Healthy(s) && e.Valid() && e.Shape()
    ensures Healthy(s + {e})
  {
  }

  /**
   * `buildEntityAt`'s placement of an item in cell (col, row): the cell's
   * corner plus the centring offset (tileScale - itemScale) * spriteWH / 2.
   */
  function ItemPlacement(col: int, row: int): (p: Vec2)
    ensures p == Vec2(100.0 * col as real + 25.0, 100.0 * row as real + 25.0)
  {
    var x := col as real * SpriteWH as real * TileScale;
    var y := row as real * SpriteWH as real * TileScale;
    var c := (TileScale - ItemScale) * SpriteWH as real * 0.5;
    Vec2(x + c, y + c)
  }

  class Game {
    var paused: bool
    var entityCounter: EntityID
    const ecsType: ECSType
    const systems: seq<System>
    /** Not used by `update` or anywhere else modelled. */
    const graphicsSystems: seq<System>
    var archetypes: seq<Archetype>
    var entities: seq<Entity>
    var player: Entity?
    const packedEntities: PackedArray
    var achievementObserver: AchievementObserver?
    var collisionCallbacks: map<EntityType, Callback>
    var gameState: GameState
    var board: Board?
    /** The window's debug-bounds flag; the rest of the window is not modelled. */
    var showDebugBounds: bool

    /** Every entity the game has been given; it contains every entity the game can reach. */
    ghost var world: set<Entity>

    /**
     * The objects a frame may change: the component objects, sprite sheets
     * and input handlers the game's entities hold, and the observers of its
     * Players.
     */
    ghost function Objs(): set<object>
      reads this`world, world`observer
    {
      (set e, o | e in world && o in e.Slots() :: o) +
      (set e | e in world && e.variant == PlayerClass && e.observer != null :: e.observer as object)
    }

    /** The systems are the constructor's and so are the buckets' masks. */
    ghost predicate Shaped()
      reads this`archetypes
    {
      systems == GameSystems &&
      |archetypes| == |InitialArchetypes(ecsType)| &&
      forall i :: 0 <= i < |archetypes| ==> archetypes[i].componentMask == InitialArchetypes(ecsType)[i].componentMask
    }

    /**
     * Every entity the game holds, in the list, the buckets, the packed
     * store, as the player or as a callback's target, is in `world`; the
     * player and the targets are Players, and no other entity shares the
     * player's health component.
     */
    ghost predicate Closed()
      reads this`entities, this`archetypes, this`player, this`collisionCallbacks, this`world, packedEntities`dense
    {
      (forall x | x in entities :: x in world) &&
      BucketMembers(archetypes) <= world &&
      (forall x | x in packedEntities.dense :: x in world) &&
      (player != null ==> player in world && player.variant == PlayerClass) &&
      (player != null ==> forall x | x in world && x != player :: x.healthComp != player.healthComp) &&
      (forall t | t in collisionCallbacks :: collisionCallbacks[t].target in world) &&
      (forall t | t in collisionCallbacks :: collisionCallbacks[t].target.variant == PlayerClass)
    }

    /** The game's invariant: the structure above, and every entity's table consistent with its class's pointers. */
    ghost predicate Valid()
      reads this`entities, this`archetypes, this`player, this`collisionCallbacks, this`world, packedEntities`dense
      reads world`componentSet, world`components
    {
      Shaped() && Closed() && Healthy(world)
    }

    /** `Game(type)`: unpaused, counter 1, the six systems, the buckets of the chosen strategy, in the menu. */
    constructor (t: ECSType)
      ensures ecsType == t && !paused && entityCounter == 1
      ensures systems == GameSystems && graphicsSystems == [NewSystem(GraphicsSystem)]
      ensures archetypes == InitialArchetypes(t)
      ensures entities == [] && player == null && achievementObserver == null && board == null
      ensures collisionCallbacks == map[] && gameState == Menu && showDebugBounds
      ensures fresh(packedEntities) && packedEntities.dense == [] && packedEntities.sparse == map[]
      ensures Valid()
    {
      paused, entityCounter, ecsType := false, 1, t;
      systems := GameSystems;
      graphicsSystems := [NewSystem(GraphicsSystem)];
      archetypes := InitialArchetypes(t);
      entities, player, achievementObserver, board := [], null, null, null;
      packedEntities := new PackedArray();
      collisionCallbacks, gameState, showDebugBounds := map[], Menu, true;
      world := {};
      BucketMembersEmpty(InitialArchetypes(t));
    }

    method TogglePause()
      modifies this`paused
      ensures paused == !old(paused)
    {
      paused := !paused;
    }

    predicate IsPaused()
      reads this`paused
    {
      paused
    }

    method StartGame()
      modifies this`gameState
      ensures gameState == Playing && !IsInMenu()
    {
      gameState := Playing;
    }

    predicate IsInMenu()
      reads this`gameState
    {
      gameState == Menu
    }

    function GetPlayer(): Entity?
      reads this`player
    {
      player
    }

    function GetIDCounter(): EntityID
      reads this`entityCounter
    {
      entityCounter
    }

    /** `getEntity(idx)`: the idx-th entity counting from 1, or null outside 1..size. */
    function GetEntity(idx: int): (r: Entity?)
      reads this`entities
      ensures 1 <= idx <= |entities| ==> r == entities[idx - 1]
      ensures idx < 1 || idx > |entities| ==> r == null
    {
      if idx < 1 || idx > |entities| then null else entities[idx - 1]
    }

    /**
     * The assignment of `player` in `init`, made before the new Player is
     * added: from then on the game holds it, listed or not.
     */
    method SetPlayer(p: Entity)
      requires Valid() && p.Valid() && p.Shape() && p.variant == PlayerClass
      requires forall x | x in world && x != p :: x.healthComp != p.healthComp
      modifies this`player, this`world
      ensures player == p && world == old(world) + {p} && Valid()
    {
      player := p;
      HealthyAdd(world, p);
      world := world + {p};
    }

    /** `registerCollisionCallback`: the kind's callback, replacing any earlier one. */
    method RegisterCollisionCallback(t: EntityType, cb: Callback)
      modifies this`collisionCallbacks
      ensures collisionCallbacks == old(collisionCallbacks)[t := cb]
      ensures old(Valid()) && player != null && cb.target == player ==> Valid()
    {
      collisionCallbacks := collisionCallbacks[t := cb];
    }

    /** `buildBoard(w, h)`: a new empty board. */
    method BuildBoard(w: nat, h: nat)
      modifies this`board
      ensures board != null && fresh(board) && board.Valid()
      ensures board.width == w && board.height == h
      ensures fresh(board.grid) && forall i :: 0 <= i < board.grid.Length ==> board.grid[i] == null
      ensures board.textureMap == map[]
    {
      board := new Board(w, h);
    }

    /** The bucket loop of `addEntity`. */
    method AddToBuckets(e: Entity)
      modifies this`archetypes
      ensures archetypes == Bucketed(old(archetypes), e.componentSet, e)
    {
      var i := 0;
      while i < |archetypes|
        invariant 0 <= i <= |archetypes| == |old(archetypes)|
        invariant archetypes == Bucketed(old(archetypes)[..i], e.componentSet, e) + old(archetypes)[i..]
      {
        BucketedStep(old(archetypes), i, e.componentSet, e);
        if e.HasComponent(archetypes[i].componentMask) {
          var a := archetypes[i];
          archetypes := archetypes[i := a.(entities := a.entities + [e])];
        }
        i := i + 1;
      }
      assert old(archetypes)[..i] == old(archetypes);
    }

    /** The strategy-specific half of `addEntity`: the matching buckets, or the packed store under e's id. */
    method StoreEntity(e: Entity)
      requires Valid() && e in world
      modifies this`archetypes, packedEntities
      ensures ecsType == ARCHETYPES ==> archetypes == Bucketed(old(archetypes), e.componentSet, e)
      ensures ecsType != ARCHETYPES ==> archetypes == old(archetypes)
      ensures ecsType == PACKED_ARRAY ==>
        packedEntities.dense == old(packedEntities.dense) + [e] &&
        packedEntities.sparse == old(packedEntities.sparse)[e.id := |old(packedEntities.dense)|]
      ensures ecsType != PACKED_ARRAY ==>
        packedEntities.dense == old(packedEntities.dense) && packedEntities.sparse == old(packedEntities.sparse)
      ensures Valid()
    {
      if ecsType == ARCHETYPES {
        AddToBuckets(e);
        BucketedEntries(old(archetypes), e.componentSet, e);
        BucketMembersAdd(old(archetypes), e.componentSet, e);
      } else if ecsType == PACKED_ARRAY {
        packedEntities.Insert(e.id, e);
      }
    }

    /**
     * `addEntity(e)`: the counter is pre-incremented and becomes e's id; e is
     * appended to the list, and also to the matching buckets (ARCHETYPES) or
     * to the packed store under its id (PACKED_ARRAY).
     */
    method AddEntity(e: Entity)
      requires Valid() && e.Valid() && e.Shape()
      requires player != null && e != player ==> e.healthComp != player.healthComp
      modifies this`entityCounter, this`entities, this`archetypes, this`world, packedEntities, e`id
      ensures entityCounter == NextId(old(entityCounter)) && e.id == entityCounter && e.observer == old(e.observer)
      ensures entities == old(entities) + [e]
      ensures ecsType == ARCHETYPES ==> archetypes == Bucketed(old(archetypes), e.componentSet, e)
      ensures ecsType != ARCHETYPES ==> archetypes == old(archetypes)
      ensures ecsType == PACKED_ARRAY ==>
        packedEntities.dense == old(packedEntities.dense) + [e] &&
        packedEntities.sparse == old(packedEntities.sparse)[e.id := |old(packedEntities.dense)|]
      ensures ecsType != PACKED_ARRAY ==>
        packedEntities.dense == old(packedEntities.dense) && packedEntities.sparse == old(packedEntities.sparse)
      ensures world == old(world) + {e}
      ensures Valid()
    {
      entityCounter := NextId(entityCounter);
      e.SetID(entityCounter);
      Enlist(e);
      StoreEntity(e);
    }

    /** The append to the linear list shared by every strategy. */
    method Enlist(e: Entity)
      requires Valid() && e.Valid() && e.Shape()
      requires player != null && e != player ==> e.healthComp != player.healthComp
      modifies this`entities, this`world
      ensures entities == old(entities) + [e] && world == old(world) + {e}
      ensures Valid()
    {
      ghost var pop := world;
      entities := entities + [e];
      assert Healthy(pop);
      HealthyAdd(pop, e);
      world := world + {e};
    }
  }

  /** The objects an entity holds are components, sprite sheets, input handlers and observers: never an entity or the game. */
  lemma PartsAreNotEntities(g: Game)
    ensures forall x: Entity :: x !in g.Objs()
    ensures g !in g.Objs() && g.packedEntities !in g.Objs()
  {
    forall e | e in g.world
      ensures (forall x: Entity :: x !in e.Slots()) && g !in e.Slots() && g.packedEntities !in e.Slots()
    {
    }
  }

  /**
   * Between two states, the game's structure, its packed store and every
   * entity's table and observer are as they were: all that the invariant
   * and the game's objects depend on.
   */
  twostate predicate Kept(g: Game)
    reads g, g.packedEntities, g.world
  {
    unchanged(g`entities, g`archetypes, g`player, g`collisionCallbacks, g`world, g.packedEntities`dense) &&
    unchanged(g.world`componentSet, g.world`components, g.world`observer)
  }

  /** The invariant and the game's objects survive any change that keeps them. */
  twostate lemma KeptValid(g: Game)
    requires old(g.Valid()) && Kept(g)
    ensures g.Valid() && g.Objs() == old(g.Objs())
  {
  }
}
