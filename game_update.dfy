/**
 * One frame of `Game::update`: the stages in order, and the single method
 * that runs them, with the frames each stage needs once the Fires spawned
 * during the frame have joined the game.
 */
module GameUpdate {
  import opened Geometry
  import opened Components
  import opened Entities
  import opened Games
  import opened Frames
  import opened SystemUpdates
  import opened Updates
  import opened Observers
  import Inputs
  import SpriteSheets

  /** The stages of `update`, named after the calls and loops that make them up. */
  datatype Stage = BigArrayPass | EntityUpdates | ArchetypesPass | PackedArrayPass | Collisions | Removal

  /** The store pass `update` picks for the game's ECS type. */
  function StorePass(t: ECSType): (r: Stage)
    ensures r in {BigArrayPass, ArchetypesPass, PackedArrayPass}
  {
    match t
    case ARCHETYPES => ArchetypesPass
    case PACKED_ARRAY => PackedArrayPass
    case BIG_ARRAY => BigArrayPass
  }

  /**
   * The stages of one frame. Unpaused, the big-array pass and the entity
   * updates come first; the store pass of the ECS type always runs, so an
   * unpaused big-array game runs the big-array pass twice; the collisions
   * and the removal close every frame.
   */
  function FrameStages(paused: bool, t: ECSType): (r: seq<Stage>)
    ensures |r| == if paused then 3 else 5
    ensures r[|r| - 2..] == [Collisions, Removal]
    ensures EntityUpdates in r <==> !paused
    ensures multiset(r)[BigArrayPass] == (if paused then 0 else 1) + (if t == BIG_ARRAY then 1 else 0)
    ensures multiset(r)[ArchetypesPass] == (if t == ARCHETYPES then 1 else 0)
    ensures multiset(r)[PackedArrayPass] == (if t == PACKED_ARRAY then 1 else 0)
  {
    (if paused then [] else [BigArrayPass, EntityUpdates]) + [StorePass(t), Collisions, Removal]
  }

  /**
   * How often the store pass of the game's ECS type ticks the TTL
   * component t: once for each holder in the list, in the packed store's
   * dense list, or in each bucket.
   */
  ghost function StoreTicks(g: Game, t: TTLComponent): nat
    reads g`entities, g`archetypes, g.packedEntities`dense
    reads Elements(g.entities)`componentSet, Elements(g.packedEntities.dense)`componentSet, BucketMembers(g.archetypes)`componentSet
  {
    match g.ecsType
    case ARCHETYPES => BucketHolders(t, g.archetypes)
    case PACKED_ARRAY => Holders(t, g.packedEntities.dense)
    case BIG_ARRAY => Holders(t, g.entities)
  }

  /** The component objects and sprite sheets the entity updates and the collisions change are among the game's. */
  lemma CompsInObjs(g: Game)
    ensures PositionComps(g) <= g.Objs() && Sheets(g) <= g.Objs()
    ensures VelocityComps(g) <= g.Objs() && HealthComps(g) <= g.Objs()
  {
    forall x | x in g.world
      ensures x.positionComp in g.Objs() && x.sheet in g.Objs()
      ensures x.velocityComp != null ==> x.velocityComp in g.Objs()
      ensures x.healthComp != null ==> x.healthComp in g.Objs()
    {
      assert x.positionComp in x.Slots() && x.sheet in x.Slots();
      assert x.velocityComp != null ==> x.velocityComp in x.Slots();
      assert x.healthComp != null ==> x.healthComp in x.Slots();
    }
  }

  /** The spawned entities and everything they hold. */
  lemma {:induction false} OwnedHolds(es: seq<Entity>)
    ensures Elements(es) <= Owned(es)
    ensures forall i | 0 <= i < |es| :: es[i].Slots() <= Owned(es)
    decreases |es|
  {
    if es != [] {
      var init := es[..|es| - 1];
      OwnedHolds(init);
      assert es == init + [es[|es| - 1]];
      assert Elements(es) == Elements(init) + {es[|es| - 1]};
    }
  }


  /** Entities whose parts are all in `made` add no holder of a TTL component outside it. */
  lemma NewHoldNothingOld(t: TTLComponent, es: seq<Entity>, spawned: seq<Entity>, made: set<object>)
    requires Owned(spawned) <= made && t !in made
    ensures Holders(t, es + spawned) == Holders(t, es)
  {
    OwnedHolds(spawned);
    forall i | 0 <= i < |spawned|
      ensures spawned[i].ttlComp != t
    {
      assert spawned[i].ttlComp != null ==> spawned[i].ttlComp in spawned[i].Slots();
    }
    HoldersAppendOthers(t, es, spawned);
  }

  /** The observers the collision callbacks may reach belong to the game's objects. */
  lemma TargetWatchersInObjs(g: Game)
    requires g.Valid()
    ensures TargetWatchers(g.collisionCallbacks) <= g.Objs()
  {
    Targets(g);
  }

  /** Everything an entity of the world holds, and the observer of each of its Players, is among the game's objects. */
  lemma HeldInObjs(g: Game)
    ensures forall e, o | e in g.world && o in e.Slots() :: o in g.Objs()
    ensures forall e | e in g.world && e.variant == PlayerClass && e.observer != null :: e.observer in g.Objs()
  {
  }

  /**
   * After the entity updates the game's objects are those it had, plus what
   * the spawned Fires brought: a Fire joins with fresh parts and, not being
   * a Player, no observer of its own counts.
   */
  lemma FrameGrows(g: Game, world0: set<Entity>, objs0: set<object>, spawned: seq<Entity>, made: set<object>)
    requires g.world == world0 + Elements(spawned)
    requires forall e, o | e in world0 && o in e.Slots() :: o in objs0
    requires forall e | e in world0 && e.variant == PlayerClass && e.observer != null :: e.observer in objs0
    requires forall i | 0 <= i < |spawned| :: spawned[i].variant == FireClass
    requires Owned(spawned) <= made
    ensures g.world <= world0 + made
    ensures g.Objs() <= objs0 + made
  {
    OwnedHolds(spawned);
    forall o | o in g.Objs()
      ensures o in objs0 || o in made
    {
      if e :| e in g.world && o in e.Slots() {
        if e !in world0 {
          var i :| 0 <= i < |spawned| && spawned[i] == e;
        }
      } else {
        var e :| e in g.world && e.variant == PlayerClass && e.observer != null && o == e.observer;
      }
    }
  }

  /**
   * The unpaused part of a frame: the big-array pass, then every entity's
   * own update. The game's objects grow only by what the spawned Fires
   * bring.
   */
  method Advance(g: Game, elapsed: real, keys: Inputs.KeyState, textures: map<string, SpriteSheets.IntVec>,
                 normalise: Vec2 -> Vec2, advance: SpriteSheets.Animator)
    returns (ghost spawned: seq<Entity>, ghost made: set<object>)
    requires g.Valid()
    modifies g`paused, g`showDebugBounds, g.world`deleted, g.world`wood, g.world`attacking, g.world`shouting,
      g.world`boundingBox, g.world`shootCooldown, g.Objs(), Watching(g)`shoutsPerformed,
      g`entityCounter, g`entities, g`archetypes, g`world, g.packedEntities
    ensures Turned(g, old(g.entities), old(g.world), spawned) && Owned(spawned) <= made && fresh(made)
    ensures g.paused == old(g.paused)
    ensures g.world <= old(g.world) + made && g.Objs() <= old(g.Objs()) + made
    ensures forall t | t in old(TtlComps(g)) :: t.ttl == TtlAfter(old(t.ttl), old(Holders(t, g.entities)))
    ensures forall t | t in old(TtlComps(g)) :: Holders(t, g.entities) == old(Holders(t, g.entities))
    ensures g.Valid() && g.player == old(g.player)
  {
    PartsAreNotEntities(g);
    ghost var t := BigArray(g, elapsed, keys);
    spawned, made := Spawn(g, elapsed, textures, normalise, advance);
  }

  /** The entity updates of an unpaused frame; the game's objects grow only by what the spawned Fires bring. */
  method Spawn(g: Game, elapsed: real, textures: map<string, SpriteSheets.IntVec>,
               normalise: Vec2 -> Vec2, advance: SpriteSheets.Animator)
    returns (ghost spawned: seq<Entity>, ghost made: set<object>)
    requires g.Valid()
    modifies g.world`boundingBox, g.world`attacking, g.world`shouting, g.world`wood, g.world`shootCooldown,
      g.Objs(), Watching(g)`shoutsPerformed, g`entityCounter, g`entities, g`archetypes, g`world, g.packedEntities
    ensures Turned(g, old(g.entities), old(g.world), spawned) && Owned(spawned) <= made && fresh(made)
    ensures g.world <= old(g.world) + made && g.Objs() <= old(g.Objs()) + made
    ensures forall t | t in old(TtlComps(g)) :: t.ttl == old(t.ttl)
    ensures forall t | t in old(TtlComps(g)) :: Holders(t, g.entities) == old(Holders(t, g.entities))
    ensures g.player == old(g.player)
  {
    ghost var world0, objs0 := g.world, g.Objs();
    HeldInObjs(g);
    CompsInObjs(g);
    spawned, made := UpdateEntities(g, elapsed, textures, normalise, advance);
    FrameGrows(g, world0, objs0, spawned, made);
    PartsAreNotEntities(g);
    assert forall x | x in Elements(old(g.entities)) :: x.componentSet == old(x.componentSet);
    forall t | t in old(TtlComps(g))
      ensures Holders(t, g.entities) == old(Holders(t, g.entities))
    {
      NewHoldNothingOld(t, old(g.entities), spawned, made);
    }
  }

  /** The store pass of the frame, chosen by the game's ECS type; it changes no object the game does not hold. */
  method Store(g: Game, elapsed: real, keys: Inputs.KeyState) returns (ghost ran: Stage)
    requires g.Valid()
    modifies g`paused, g`showDebugBounds, g.world`deleted, g.world`wood, g.world`attacking, g.world`shouting, g.Objs()
    ensures g.Valid() && g.paused == old(g.paused) && g.Objs() == old(g.Objs())
    ensures ran == StorePass(g.ecsType)
    ensures forall t | t in old(TtlComps(g)) :: t.ttl == TtlAfter(old(t.ttl), old(StoreTicks(g, t)))
  {
    ran := StorePass(g.ecsType);
    ghost var t;
    match g.ecsType
    case ARCHETYPES => t := UpdateArchetypes(g, elapsed, keys);
    case PACKED_ARRAY => t := UpdatePackedArray(g, elapsed, keys);
    case BIG_ARRAY => t := BigArray(g, elapsed, keys);
  }

  /** The close of every frame: the collisions with the player, then the removal of deleted entities from the list. */
  method Finish(g: Game)
    requires g.Valid() && g.player != null
    modifies g.world`deleted, g.world`wood, g.Objs(), g`entities
    ensures g.Valid()
    ensures g.entities == Survivors(old(g.entities))
    ensures forall x | x in g.entities :: !x.deleted
    ensures forall t | t in old(TtlComps(g)) :: t.ttl == old(t.ttl)
  {
    CompsInObjs(g);
    TargetWatchersInObjs(g);
    CollisionPass(g);
    Sweep(g);
    forall x | x in g.entities
      ensures !x.deleted
    {
      SurvivorsMembership(old(g.entities), x);
    }
  }

  /** The stages every frame runs: the store pass, the collisions and the removal. */
  method Close(g: Game, elapsed: real, keys: Inputs.KeyState) returns (ghost ran: Stage)
    requires g.Valid() && g.player != null
    modifies g`paused, g`showDebugBounds, g.world`deleted, g.world`wood, g.world`attacking, g.world`shouting, g.Objs(), g`entities
    ensures g.Valid() && g.paused == old(g.paused) && ran == StorePass(g.ecsType)
    ensures g.entities == Survivors(old(g.entities))
    ensures forall x | x in g.entities :: !x.deleted
    ensures forall t | t in old(TtlComps(g)) :: t.ttl == TtlAfter(old(t.ttl), old(StoreTicks(g, t)))
  {
    PartsAreNotEntities(g);
    ran := Store(g, elapsed, keys);
    Finish(g);
  }

  /**
   * An unpaused frame: the big-array pass and the entities' own updates,
   * then the store's pass, collisions and removal. On the big-array store
   * every TTL component is counted down once per holder in each of the
   * two passes.
   */
  method PlayFrame(g: Game, elapsed: real, keys: Inputs.KeyState, textures: map<string, SpriteSheets.IntVec>,
                   normalise: Vec2 -> Vec2, advance: SpriteSheets.Animator)
    returns (ghost spawned: seq<Entity>, ghost stored: Stage)
    requires g.Valid() && g.player != null && !g.paused
    modifies g`paused, g`showDebugBounds, g`entityCounter, g`entities, g`archetypes, g`world, g.packedEntities,
      g.world`deleted, g.world`wood, g.world`attacking, g.world`shouting, g.world`boundingBox, g.world`shootCooldown,
      g.Objs(), Watching(g)`shoutsPerformed
    ensures g.Valid() && !g.paused && stored == StorePass(g.ecsType)
    ensures g.entities == Survivors(old(g.entities) + spawned)
    ensures forall x | x in g.entities :: !x.deleted
    ensures g.ecsType == BIG_ARRAY ==>
      forall t | t in old(TtlComps(g)) :: t.ttl == TtlAfter(old(t.ttl), 2 * old(Holders(t, g.entities)))
  {
    PartsAreNotEntities(g);
    ghost var ttl0, held := TtlValues(g), map t | t in TtlComps(g) :: Holders(t, g.entities);
    ghost var made;
    spawned, made := Advance(g, elapsed, keys, textures, normalise, advance);
    ghost var mid := TtlValues(g);
    ghost var ticks := map t | t in TtlComps(g) :: StoreTicks(g, t);
    assert g.ecsType == BIG_ARRAY ==>
      forall t | t in old(TtlComps(g)) :: t in mid && t in ticks && mid[t] == TtlAfter(ttl0[t], held[t]) && ticks[t] == held[t];
    PartsAreNotEntities(g);
    stored := Close(g, elapsed, keys);
    if g.ecsType == BIG_ARRAY {
      TwoPasses(old(TtlComps(g)), ttl0, held, mid, ticks);
    }
  }

  /**
   * `update(elapsed)`: the stages of `FrameStages` in order. The entities
   * left listed are the survivors of those the frame began with followed
   * by the Fires it spawned; a paused frame spawns none, and only the
   * store's pass counts TTL components down.
   */
  method Update(g: Game, elapsed: real, keys: Inputs.KeyState, textures: map<string, SpriteSheets.IntVec>,
                normalise: Vec2 -> Vec2, advance: SpriteSheets.Animator)
    returns (ghost ran: seq<Stage>, ghost spawned: seq<Entity>)
    requires g.Valid() && g.player != null
    modifies g`paused, g`showDebugBounds, g`entityCounter, g`entities, g`archetypes, g`world, g.packedEntities,
      g.world`deleted, g.world`wood, g.world`attacking, g.world`shouting, g.world`boundingBox, g.world`shootCooldown,
      g.Objs(), Watching(g)`shoutsPerformed
    ensures g.Valid() && g.paused == old(g.paused)
    ensures ran == FrameStages(old(g.paused), g.ecsType)
    ensures g.entities == Survivors(old(g.entities) + spawned)
    ensures forall x | x in g.entities :: !x.deleted
    ensures old(g.paused) ==> spawned == []
    ensures old(g.paused) ==>
      forall t | t in old(TtlComps(g)) :: t.ttl == TtlAfter(old(t.ttl), old(StoreTicks(g, t)))
    ensures !old(g.paused) && g.ecsType == BIG_ARRAY ==>
      forall t | t in old(TtlComps(g)) :: t.ttl == TtlAfter(old(t.ttl), 2 * old(Holders(t, g.entities)))
  {
    ghost var stored;
    if !g.paused {
      spawned, stored := PlayFrame(g, elapsed, keys, textures, normalise, advance);
      ran := [BigArrayPass, EntityUpdates];
    } else {
      spawned := [];
      ran := [];
      assert old(g.entities) + spawned == old(g.entities);
      PartsAreNotEntities(g);
      stored := Close(g, elapsed, keys);
    }
    ran := ran + [stored, Collisions, Removal];
  }

  /**
   * Two runs of the same count, the second from the values the first left,
   * tick each component twice that count.
   */
  lemma TwoPasses(ts: set<TTLComponent>, ttl0: map<TTLComponent, int>, held: map<TTLComponent, nat>,
                  mid: map<TTLComponent, int>, ticks: map<TTLComponent, nat>)
    requires ts <= ttl0.Keys && ts <= held.Keys && ts <= mid.Keys && ts <= ticks.Keys
    requires forall t | t in ts :: mid[t] == TtlAfter(ttl0[t], held[t]) && ticks[t] == held[t]
    requires forall t | t in ts :: t.ttl == TtlAfter(mid[t], ticks[t])
    ensures forall t | t in ts :: t.ttl == TtlAfter(ttl0[t], 2 * held[t])
  {
    forall t | t in ts
      ensures t.ttl == TtlAfter(ttl0[t], 2 * held[t])
    {
      TtlAfterAdd(ttl0[t], held[t], held[t]);
    }
  }
}
