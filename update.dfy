// The rest of a frame (Game.cpp): the per-entity updates, the collision
// callback pass, the removal of deleted entities, the order of the stages
// in `update`, and `handleInput`.

module Updates {
  import opened Wrappers
  import opened Geometry
  import opened Components
  import opened Entities
  import opened PlayerRules
  import opened Games
  import opened Observers
  import opened Frames
  import opened SystemUpdates
  import Commands
  import Inputs
  import SpriteSheets

  // ---------------------------------------------------------------------
  // Removal of deleted entities

  /** The entities of `es` that are not deleted, in their order: what erase-remove leaves. */
  function Survivors(es: seq<Entity>): (r: seq<Entity>)
    reads Elements(es)`deleted
    ensures |r| <= |es|
    decreases |es|
  {
    if es == [] then [] else
      var last := es[|es| - 1];
      Survivors(es[..|es| - 1]) + (if last.deleted then [] else [last])
  }

  /** An entity survives exactly when it was listed and is not deleted. */
  lemma {:induction false} SurvivorsMembership(es: seq<Entity>, x: Entity)
    ensures x in Survivors(es) <==> x in es && !x.deleted
    decreases |es|
  {
    if es != [] {
      SurvivorsMembership(es[..|es| - 1], x);
      assert es == es[..|es| - 1] + [es[|es| - 1]];
    }
  }

  /** Removal works piecewise, so survivors keep their relative order. */
  lemma {:induction false} SurvivorsAppend(a: seq<Entity>, b: seq<Entity>)
    ensures Survivors(a + b) == Survivors(a) + Survivors(b)
    decreases |b|
  {
    if b == [] {
      assert a + b == a;
    } else {
      var b' := b[..|b| - 1];
      assert (a + b)[..|a + b| - 1] == a + b';
      SurvivorsAppend(a, b');
    }
  }

  /** A list without deleted entities is left as it is, so a second removal changes nothing. */
  lemma {:induction false} SurvivorsOfLive(es: seq<Entity>)
    requires forall i :: 0 <= i < |es| ==> !es[i].deleted
    ensures Survivors(es) == es
    decreases |es|
  {
    if es != [] {
      SurvivorsOfLive(es[..|es| - 1]);
    }
  }

  lemma SurvivorsIdempotent(es: seq<Entity>)
    ensures Survivors(Survivors(es)) == Survivors(es)
  {
    forall i | 0 <= i < |Survivors(es)|
      ensures !Survivors(es)[i].deleted
    {
      SurvivorsMembership(es, Survivors(es)[i]);
    }
    SurvivorsOfLive(Survivors(es));
  }

  /** The erase-remove at the end of `update`: only the linear list is pruned. */
  method Sweep(g: Game)
    requires g.Valid()
    modifies g`entities
    ensures g.entities == Survivors(old(g.entities))
    ensures g.Valid()
  {
    var kept := [];
    var j := 0;
    while j < |g.entities|
      invariant 0 <= j <= |g.entities|
      invariant kept == Survivors(g.entities[..j])
    {
      assert g.entities[..j + 1][..j] == g.entities[..j];
      if !g.entities[j].deleted {
        kept := kept + [g.entities[j]];
      }
      j := j + 1;
    }
    assert g.entities[..j] == g.entities;
    forall x | x in kept
      ensures x in g.world
    {
      SurvivorsMembership(g.entities, x);
    }
    g.entities := kept;
  }

  // ---------------------------------------------------------------------
  // The per-entity updates

  /** Where a Mushroom heads: the player's position, none without a player. */
  function PlayerPosition(g: Game): (r: Option<Vec2>)
    reads g`player, if g.player != null then {g.player.positionComp} else {}
    ensures r.Some? <==> g.player != null
    ensures r.Some? ==> r.value == g.player.positionComp.position
  {
    if g.player != null then Some(g.player.GetPosition()) else None
  }

  /**
   * `ent->update(this, elapsed)` for one entity of the game, followed by
   * `addEntity` of the fire a Player's update creates.
   */
  method UpdateOne(g: Game, ent: Entity, elapsed: real, textures: map<string, SpriteSheets.IntVec>,
                   normalise: Vec2 -> Vec2, advance: SpriteSheets.Animator)
    returns (fire: Entity?)
    requires g.Valid() && ent in g.world
    modifies ent.positionComp, ent.sheet, ent.Velocities(), ent`boundingBox, ent`attacking, ent`shouting, ent`wood,
      ent`shootCooldown, ent.Watchers()`shoutsPerformed, g`entityCounter, g`entities, g`archetypes, g`world,
      g.packedEntities
    ensures g.Valid()
    ensures fire != null ==>
      fresh({fire as object} + fire.Slots()) && fire.variant == FireClass && fire.observer == null && ent.variant == PlayerClass
    ensures fire == null ==> g.entities == old(g.entities) && g.world == old(g.world)
    ensures fire != null ==> g.entities == old(g.entities) + [fire] && g.world == old(g.world) + {fire}
    ensures forall x | x in old(g.world) :: x.observer == old(x.observer)
  {
    fire := TickOne(g, ent, elapsed, textures, normalise, advance);
    if fire != null {
      if g.player != null {
        assert g.player.Shape();
        if fire.healthComp != null {
          assert fire.healthComp in fire.Parts();
        }
      }
      g.AddEntity(fire);
    }
  }

  /** `ent->update(this, elapsed)` on an entity of the game, which keeps the game's invariant. */
  method TickOne(g: Game, ent: Entity, elapsed: real, textures: map<string, SpriteSheets.IntVec>,
                 normalise: Vec2 -> Vec2, advance: SpriteSheets.Animator)
    returns (fire: Entity?)
    requires g.Valid() && ent in g.world
    modifies ent.positionComp, ent.sheet, ent.Velocities(), ent`boundingBox, ent`attacking, ent`shouting, ent`wood,
      ent`shootCooldown, ent.Watchers()`shoutsPerformed
    ensures g.Valid()
    ensures fire != null ==>
      fresh(fire) && fresh(fire.Parts()) && fire.Valid() && fire.Shape() && fire.variant == FireClass &&
      fire.observer == null && ent.variant == PlayerClass
  {
    var target := PlayerPosition(g);
    assert ent.Shape();
    fire := SpawningUpdate(ent, target, elapsed, textures, normalise, advance);
  }

  /** `ent->update(this, elapsed)`, as far as the game is concerned: the fire it may hand back is a new, consistent Fire. */
  method SpawningUpdate(ent: Entity, target: Option<Vec2>, elapsed: real, textures: map<string, SpriteSheets.IntVec>,
                        normalise: Vec2 -> Vec2, advance: SpriteSheets.Animator) returns (fire: Entity?)
    requires ent.Shape()
    modifies ent.positionComp, ent.sheet, ent.Velocities(), ent`boundingBox, ent`attacking, ent`shouting, ent`wood,
      ent`shootCooldown, ent.Watchers()`shoutsPerformed
    ensures fire != null ==>
      fresh(fire) && fresh(fire.Parts()) && fire.Valid() && fire.Shape() && fire.variant == FireClass &&
      fire.observer == null && ent.variant == PlayerClass
  {
    var unlocked;
    fire, unlocked := ent.Update(target, elapsed, textures, normalise, advance);
  }

  /** The position components of the game's entities. */
  ghost function PositionComps(g: Game): set<PositionComponent>
    reads g`world
  {
    PositionsOf(g.world)
  }

  /** The sprite sheets of the game's entities. */
  ghost function Sheets(g: Game): set<SpriteSheets.SpriteSheet>
    reads g`world
  {
    SheetsOf(g.world)
  }

  /** The velocity components of the game's entities. */
  ghost function VelocityComps(g: Game): set<VelocityComponent>
    reads g`world
  {
    VelocitiesOf(g.world)
  }

  /** The position components of the entities `world`. */
  ghost function PositionsOf(world: set<Entity>): set<PositionComponent>
  {
    set x | x in world :: x.positionComp
  }

  /** The sprite sheets of the entities `world`. */
  ghost function SheetsOf(world: set<Entity>): set<SpriteSheets.SpriteSheet>
  {
    set x | x in world :: x.sheet
  }

  /** The velocity components of the entities `world`. */
  ghost function VelocitiesOf(world: set<Entity>): set<VelocityComponent>
  {
    set x | x in world && x.velocityComp != null :: x.velocityComp
  }

  /** An entity's own components are among those of the entities it is one of. */
  lemma Held(world: set<Entity>, ent: Entity)
    requires ent in world
    ensures ent.positionComp in PositionsOf(world) && ent.sheet in SheetsOf(world) && ent.Velocities() <= VelocitiesOf(world)
  {
  }

  /** The entities of `es` and the objects they hold through their constant pointers. */
  ghost function Owned(es: seq<Entity>): set<object>
    decreases |es|
  {
    if es == [] then {} else Owned(es[..|es| - 1]) + {es[|es| - 1] as object} + es[|es| - 1].Slots()
  }

  /**
   * What holds after the first turns of the loop of `UpdateEntities`: the
   * game is consistent, and the Fires spawned so far, with no observer, are
   * appended to the list `es` the loop walks and added to the entities
   * `world` it began with.
   */
  ghost predicate Turned(g: Game, es: seq<Entity>, world: set<Entity>, spawned: seq<Entity>)
    reads g`entities, g`archetypes, g`player, g`collisionCallbacks, g`world, g.packedEntities`dense
    reads g.world`componentSet, g.world`components
  {
    g.Valid() && g.entities == es + spawned && g.world == world + Elements(spawned) &&
    forall i | 0 <= i < |spawned| :: spawned[i].variant == FireClass
  }

  /**
   * The loop `for (auto& ent : entities) ent->update(this, elapsed)` of
   * `update`, over the list as it was when the loop began. The fires the
   * Players spawn are appended to the list, in the order they are spawned;
   * they and their components are new objects, collected in `made`.
   */
  method UpdateEntities(g: Game, elapsed: real, textures: map<string, SpriteSheets.IntVec>,
                        normalise: Vec2 -> Vec2, advance: SpriteSheets.Animator)
    returns (ghost spawned: seq<Entity>, ghost made: set<object>)
    requires g.Valid()
    modifies PositionComps(g), Sheets(g), VelocityComps(g), Watching(g)`shoutsPerformed, g.world`boundingBox,
      g.world`attacking, g.world`shouting, g.world`wood, g.world`shootCooldown,
      g`entityCounter, g`entities, g`archetypes, g`world, g.packedEntities
    ensures Turned(g, old(g.entities), old(g.world), spawned)
    ensures Owned(spawned) <= made && fresh(made)
    ensures forall x | x in old(g.world) :: x.observer == old(x.observer)
    ensures forall t | t in old(TtlComps(g)) :: t.ttl == old(t.ttl)
    ensures g.player == old(g.player)
  {
    var es := g.entities;
    ghost var world := g.world;
    ghost var ps, ss, vs, ws := PositionComps(g), Sheets(g), VelocityComps(g), Watching(g);
    spawned, made := [], {};
    var j := 0;
    while j < |es|
      invariant 0 <= j <= |es|
      invariant Turned(g, es, world, spawned) && Owned(spawned) <= made && fresh(made)
      invariant forall x | x in world :: x.observer == old(x.observer)
      invariant g.player == old(g.player)
    {
      var ent := es[j];
      assert ent in world;
      Held(world, ent);
      assert ent.Watchers() <= ws;
      ghost var more;
      spawned, more := EntityTurn(g, ent, elapsed, textures, normalise, advance, es, world, spawned, made);
      made := made + more;
      j := j + 1;
    }
  }

  /**
   * One turn of the loop of `UpdateEntities`: the entity's update, and the
   * fire it spawns appended to the list; the new objects are `made`.
   */
  method EntityTurn(g: Game, ent: Entity, elapsed: real, textures: map<string, SpriteSheets.IntVec>,
                    normalise: Vec2 -> Vec2, advance: SpriteSheets.Animator,
                    ghost es: seq<Entity>, ghost world: set<Entity>, ghost spawned: seq<Entity>,
                    ghost before: set<object>)
    returns (ghost next: seq<Entity>, ghost made: set<object>)
    requires Turned(g, es, world, spawned) && ent in world && Owned(spawned) <= before
    modifies ent.positionComp, ent.sheet, ent.Velocities(), ent`boundingBox, ent`attacking, ent`shouting, ent`wood,
      ent`shootCooldown, ent.Watchers()`shoutsPerformed, g`entityCounter, g`entities, g`archetypes, g`world,
      g.packedEntities
    ensures Turned(g, es, world, next) && Owned(next) <= before + made && fresh(made)
    ensures forall x | x in world :: x.observer == old(x.observer)
    ensures g.player == old(g.player)
  {
    var fire := UpdateOne(g, ent, elapsed, textures, normalise, advance);
    if fire != null {
      var f: Entity := fire;
      assert Elements(spawned + [f]) == Elements(spawned) + {f};
      next, made := spawned + [f], {f as object} + f.Slots();
      assert fresh(made);
      assert next[..|spawned|] == spawned;
      Associative(es, spawned, [f]);
      forall i | 0 <= i < |next|
        ensures next[i].variant == FireClass
      {
        if i < |spawned| {
          assert next[i] == spawned[i];
        }
      }
    } else {
      next, made := spawned, {};
    }
  }

  // ---------------------------------------------------------------------
  // The collision callback pass

  /** One call of a registered collision callback, with the entity it is given. */
  datatype Call = Call(callback: Callback, arg: Entity)

  /**
   * Whether a call deletes its argument: the potion handler deletes a Potion when its player has a health
   * component; the log handler deletes a Log when its player is attacking and
   * the current animation is in action.
   */
  predicate Consumes(c: Call)
    reads c.callback.target`attacking, c.callback.target.sheet`animations, c.callback.target.sheet`current
  {
    match c.callback
    case PotionCallback(t) => c.arg.variant == PotionClass && t.healthComp != null
    case LogCallback(t) => t.attacking && t.AnimInAction() && c.arg.variant == LogClass
  }

  /** The players the callback table binds. */
  function CallbackTargets(cbs: map<EntityType, Callback>): set<Entity>
  {
    set k | k in cbs :: cbs[k].target
  }

  /** Their sprite sheets. */
  function TargetSheets(cbs: map<EntityType, Callback>): set<SpriteSheets.SpriteSheet>
  {
    set k | k in cbs :: cbs[k].target.sheet
  }

  /** The player whose callback x would be handed to, if its kind is registered. */
  function HandlerOf(cbs: map<EntityType, Callback>, x: Entity): set<Entity>
  {
    if x.kind in cbs then {cbs[x.kind].target} else {}
  }

  /** That player's sprite sheet. */
  function HandlerSheet(cbs: map<EntityType, Callback>, x: Entity): set<SpriteSheets.SpriteSheet>
  {
    if x.kind in cbs then {cbs[x.kind].target.sheet} else {}
  }

  /**
   * Whether the pass deletes x: x is not the player, its box meets the
   * player's, its kind is registered, and that kind's callback consumes it.
   */
  predicate Collected(player: Entity, cbs: map<EntityType, Callback>, x: Entity)
    reads player`boundingBox, x`boundingBox, HandlerOf(cbs, x)`attacking, HandlerSheet(cbs, x)`animations,
      HandlerSheet(cbs, x)`current
  {
    x != player && Intersects(player.boundingBox, x.boundingBox) && x.kind in cbs && Consumes(Call(cbs[x.kind], x))
  }

  /** The health components the game's entities hold. */
  ghost function HealthComps(g: Game): set<HealthComponent>
    reads g`world
  {
    set x | x in g.world && x.healthComp != null :: x.healthComp
  }

  /** The verdict of the pass on every entity of the world, taken before it runs. */
  ghost function Verdicts(world: set<Entity>, player: Entity, cbs: map<EntityType, Callback>): (r: map<Entity, bool>)
    reads world`boundingBox, player`boundingBox, CallbackTargets(cbs)`attacking, TargetSheets(cbs)`animations, TargetSheets(cbs)`current
    ensures r.Keys == world
  {
    map x | x in world :: Collected(player, cbs, x)
  }

  /**
   * `v` raised by `d` and clamped to [0, hi], n times over: the health of a
   * player after n potions, or its wood after n logs.
   */
  function ToppedUp(v: int, hi: nat, d: nat, n: nat): (r: int)
    ensures n > 0 ==> 0 <= r <= hi
    decreases n
  {
    if n == 0 then v else Clamp(ToppedUp(v, hi, d, n - 1) + d, hi)
  }

  /** From within range, n top-ups add n·d until the bound stops them. */
  lemma {:induction false} ToppedUpClosedForm(v: int, hi: nat, d: nat, n: nat)
    requires 0 <= v <= hi
    ensures ToppedUp(v, hi, d, n) == Min(v + d * n, hi)
    decreases n
  {
    if n > 0 {
      ToppedUpClosedForm(v, hi, d, n - 1);
      assert d * n == d * (n - 1) + d;
    }
  }

  /** x is consumed by the callback of its kind, by the verdicts taken before the pass. */
  ghost predicate Fed(x: Entity, verdict: map<Entity, bool>, cbs: map<EntityType, Callback>)
  {
    x in verdict && verdict[x] && x.kind in cbs
  }

  /** How many entities of `done` a potion handler consumes whose player holds h. */
  ghost function PotionTally(done: seq<Entity>, verdict: map<Entity, bool>, cbs: map<EntityType, Callback>,
                             h: HealthComponent): nat
    decreases |done|
  {
    if done == [] then 0 else
      var x := done[|done| - 1];
      PotionTally(done[..|done| - 1], verdict, cbs, h) +
      (if Fed(x, verdict, cbs) && cbs[x.kind].PotionCallback? && cbs[x.kind].target.healthComp == h then 1 else 0)
  }

  /** The observer each player the callback table binds reports to. */
  function Reporters(cbs: map<EntityType, Callback>): (r: map<Entity, AchievementObserver?>)
    reads CallbackTargets(cbs)`observer
    ensures r.Keys == CallbackTargets(cbs)
  {
    map t | t in CallbackTargets(cbs) :: t.observer
  }

  /** How many entities of `done` a potion handler consumes whose player reports to w, by the observers `obs`. */
  ghost function WatchTally(done: seq<Entity>, verdict: map<Entity, bool>, cbs: map<EntityType, Callback>,
                            obs: map<Entity, AchievementObserver?>, w: AchievementObserver): nat
    decreases |done|
  {
    if done == [] then 0 else
      var x := done[|done| - 1];
      WatchTally(done[..|done| - 1], verdict, cbs, obs, w) +
      (if Fed(x, verdict, cbs) && cbs[x.kind].PotionCallback? && cbs[x.kind].target in obs && obs[cbs[x.kind].target] == w
       then 1 else 0)
  }

  /** How many entities of `done` the log handler of player p consumes. */
  ghost function LogTally(done: seq<Entity>, verdict: map<Entity, bool>, cbs: map<EntityType, Callback>, p: Entity): nat
    decreases |done|
  {
    if done == [] then 0 else
      var x := done[|done| - 1];
      LogTally(done[..|done| - 1], verdict, cbs, p) +
      (if Fed(x, verdict, cbs) && cbs[x.kind] == LogCallback(p) then 1 else 0)
  }

  /**
   * The collision loop of `update`: every entity other than the player whose
   * bounding box meets the player's is handed to the callback registered
   * for its kind; nothing happens for an unregistered kind. An entity ends
   * deleted iff it was deleted or received a callback that consumes it;
   * every consumed Potion restores `PotionHealth` (clamped) to the health
   * component of the handler's player and counts once with that player's
   * observer, and every consumed Log adds `LogWood` (clamped) to its
   * player's wood. The source dereferences the player here without a
   * check, hence the precondition.
   */
  method CollisionPass(g: Game)
    requires g.Valid() && g.player != null
    modifies g.world`deleted, g.world`wood, HealthComps(g)`currentHealth, TargetWatchers(g.collisionCallbacks)`potionsCollected
    ensures g.Valid()
    ensures forall x | x in g.world ::
      x.deleted == (old(x.deleted) || (x in g.entities && old(Collected(g.player, g.collisionCallbacks, x))))
    ensures var verdict := old(Verdicts(g.world, g.player, g.collisionCallbacks));
      forall h | h in old(HealthComps(g)) ::
        h.currentHealth == ToppedUp(old(h.currentHealth), h.maxHealth, PotionHealth, PotionTally(g.entities, verdict, g.collisionCallbacks, h))
    ensures var verdict := old(Verdicts(g.world, g.player, g.collisionCallbacks));
      forall w | w in old(TargetWatchers(g.collisionCallbacks)) ::
        w.potionsCollected ==
          old(w.potionsCollected) + WatchTally(g.entities, verdict, g.collisionCallbacks, old(Reporters(g.collisionCallbacks)), w)
    ensures var verdict := old(Verdicts(g.world, g.player, g.collisionCallbacks));
      forall x | x in g.world ::
        x.wood == ToppedUp(old(x.wood), MaxWood, LogWood, LogTally(g.entities, verdict, g.collisionCallbacks, x))
  {
    Targets(g);
    forall x | x in g.world
      ensures HealthOf(x) <= HealthComps(g)
    {
    }
    Collisions(g.entities, g.player, g.collisionCallbacks, g.world, HealthComps(g), TargetWatchers(g.collisionCallbacks));
  }

  /**
   * The handlers bound to players of the world whose health components `hs`
   * covers, and a list drawn from the world.
   */
  ghost predicate Wired(cbs: map<EntityType, Callback>, world: set<Entity>, es: seq<Entity>, hs: set<HealthComponent>)
  {
    (forall k | k in cbs ::
       var t := cbs[k].target;
       t in world && t.variant == PlayerClass && HealthOf(t) <= hs) &&
    forall x | x in es :: x in world
  }

  /** The observers of the players the callback table binds. */
  ghost function TargetWatchers(cbs: map<EntityType, Callback>): set<AchievementObserver>
    reads CallbackTargets(cbs)`observer
  {
    set k | k in cbs && cbs[k].target.observer != null :: cbs[k].target.observer
  }

  /** The handlers' observers are covered by `ws`. */
  ghost predicate Watched(cbs: map<EntityType, Callback>, ws: set<AchievementObserver>)
    reads CallbackTargets(cbs)`observer
  {
    forall k | k in cbs :: cbs[k].target.Watchers() <= ws
  }

  /** `obs` names an observer for every handler's player, and each one it names is covered by `ws`. */
  ghost predicate Reports(cbs: map<EntityType, Callback>, obs: map<Entity, AchievementObserver?>, ws: set<AchievementObserver>)
  {
    forall k | k in cbs :: cbs[k].target in obs && (obs[cbs[k].target] != null ==> obs[cbs[k].target] in ws)
  }

  /** The four things the pass changes, as plain values: deletion flags, health, potion counts and wood. */
  datatype Ledger = Ledger(deleted: map<Entity, bool>, health: map<HealthComponent, int>,
                           potions: map<AchievementObserver, int>, wood: map<Entity, int>)

  /** The ledger of the flags and values of `world`, `hs` and `ws` as they stand. */
  ghost function Books(world: set<Entity>, hs: set<HealthComponent>, ws: set<AchievementObserver>): (r: Ledger)
    reads world`deleted, world`wood, hs`currentHealth, ws`potionsCollected
    ensures Mirrors(r, world, hs, ws)
  {
    Ledger(map x | x in world :: x.deleted, map h | h in hs :: h.currentHealth,
           map w | w in ws :: w.potionsCollected, map x | x in world :: x.wood)
  }

  /** The flags and values of `world`, `hs` and `ws` are those the ledger records. */
  ghost predicate Mirrors(l: Ledger, world: set<Entity>, hs: set<HealthComponent>, ws: set<AchievementObserver>)
    reads world`deleted, world`wood, hs`currentHealth, ws`potionsCollected
  {
    (forall x | x in world :: x in l.deleted && x.deleted == l.deleted[x] && x in l.wood && x.wood == l.wood[x]) &&
    (forall h | h in hs :: h in l.health && h.currentHealth == l.health[h]) &&
    (forall w | w in ws :: w in l.potions && w.potionsCollected == l.potions[w])
  }

  /**
   * What handing x to the callback of its kind does to the ledger, by the
   * verdicts and observers taken before the pass: nothing unless x is
   * consumed; a consumed Potion is deleted, tops up its player's health and
   * counts with its observer; a consumed Log is deleted and adds wood.
   */
  ghost function Credit(l: Ledger, x: Entity, consumed: map<Entity, bool>, cbs: map<EntityType, Callback>,
                        obs: map<Entity, AchievementObserver?>): Ledger
  {
    if !Fed(x, consumed, cbs) then l else
      match cbs[x.kind]
      case PotionCallback(t) =>
        var h := t.healthComp;
        var w := if t in obs then obs[t] else null;
        l.(deleted := l.deleted[x := true],
           health := if h != null && h in l.health then l.health[h := Clamp(l.health[h] + PotionHealth, h.maxHealth)] else l.health,
           potions := if w != null && w in l.potions then l.potions[w := l.potions[w] + 1] else l.potions)
      case LogCallback(t) =>
        l.(deleted := l.deleted[x := true],
           wood := if t in l.wood then l.wood[t := Clamp(l.wood[t] + LogWood, MaxWood)] else l.wood)
  }

  /** The ledger after handing every entity of `done`, in order, to its callback. */
  ghost function Account(l: Ledger, done: seq<Entity>, consumed: map<Entity, bool>, cbs: map<EntityType, Callback>,
                         obs: map<Entity, AchievementObserver?>): Ledger
    decreases |done|
  {
    if done == [] then l else Credit(Account(l, done[..|done| - 1], consumed, cbs, obs), done[|done| - 1], consumed, cbs, obs)
  }

  /** One more entity is one more credit. */
  lemma AccountSnoc(l: Ledger, done: seq<Entity>, x: Entity, consumed: map<Entity, bool>, cbs: map<EntityType, Callback>,
                    obs: map<Entity, AchievementObserver?>)
    ensures Account(l, done + [x], consumed, cbs, obs) == Credit(Account(l, done, consumed, cbs, obs), x, consumed, cbs, obs)
  {
    assert (done + [x])[..|done|] == done;
  }

  /** A prefix one longer is the prefix and the next element. */
  lemma PrefixSnoc<T>(s: seq<T>, j: nat)
    requires j < |s|
    ensures s[..j + 1] == s[..j] + [s[j]]
  {
  }

  /** In the account of a list, an entity is deleted iff it was, or it is listed and consumed. */
  lemma {:induction false} AccountDeletes(l: Ledger, done: seq<Entity>, consumed: map<Entity, bool>,
                                          cbs: map<EntityType, Callback>, obs: map<Entity, AchievementObserver?>)
    ensures var r := Account(l, done, consumed, cbs, obs);
      forall x | x in l.deleted :: x in r.deleted && r.deleted[x] == (l.deleted[x] || (x in done && Fed(x, consumed, cbs)))
    decreases |done|
  {
    if done != [] {
      var front := done[..|done| - 1];
      AccountDeletes(l, front, consumed, cbs, obs);
      assert forall y | y in done :: y in front || y == done[|done| - 1];
    }
  }

  /** In the account of a list, a health component is topped up once per consumed potion for its player. */
  lemma {:induction false} AccountHeals(l: Ledger, done: seq<Entity>, consumed: map<Entity, bool>,
                                        cbs: map<EntityType, Callback>, obs: map<Entity, AchievementObserver?>)
    ensures var r := Account(l, done, consumed, cbs, obs);
      forall h | h in l.health ::
        h in r.health && r.health[h] == ToppedUp(l.health[h], h.maxHealth, PotionHealth, PotionTally(done, consumed, cbs, h))
    decreases |done|
  {
    if done != [] {
      AccountHeals(l, done[..|done| - 1], consumed, cbs, obs);
    }
  }

  /** In the account of a list, an observer counts each consumed potion of a player reporting to it. */
  lemma {:induction false} AccountCounts(l: Ledger, done: seq<Entity>, consumed: map<Entity, bool>,
                                         cbs: map<EntityType, Callback>, obs: map<Entity, AchievementObserver?>)
    ensures var r := Account(l, done, consumed, cbs, obs);
      forall w | w in l.potions :: w in r.potions && r.potions[w] == l.potions[w] + WatchTally(done, consumed, cbs, obs, w)
    decreases |done|
  {
    if done != [] {
      AccountCounts(l, done[..|done| - 1], consumed, cbs, obs);
    }
  }

  /** In the account of a list, a player gathers wood once per log its handler consumed. */
  lemma {:induction false} AccountGathers(l: Ledger, done: seq<Entity>, consumed: map<Entity, bool>,
                                          cbs: map<EntityType, Callback>, obs: map<Entity, AchievementObserver?>)
    ensures var r := Account(l, done, consumed, cbs, obs);
      forall x | x in l.wood :: x in r.wood && r.wood[x] == ToppedUp(l.wood[x], MaxWood, LogWood, LogTally(done, consumed, cbs, x))
    decreases |done|
  {
    if done != [] {
      AccountGathers(l, done[..|done| - 1], consumed, cbs, obs);
    }
  }

  /**
   * The collision pass over the list `es`, given the player, the callback
   * table, the world and the health components and observers the handlers
   * reach, stated field by field against the verdicts taken before it.
   */
  method Collisions(es: seq<Entity>, player: Entity, cbs: map<EntityType, Callback>, ghost world: set<Entity>,
                    ghost hs: set<HealthComponent>, ghost ws: set<AchievementObserver>)
    requires Wired(cbs, world, es, hs) && Watched(cbs, ws)
    modifies world`deleted, world`wood, hs`currentHealth, ws`potionsCollected
    ensures forall x | x in world :: x.deleted == (old(x.deleted) || (x in es && old(Collected(player, cbs, x))))
    ensures var verdict := old(Verdicts(world, player, cbs));
      forall h | h in hs :: h.currentHealth == ToppedUp(old(h.currentHealth), h.maxHealth, PotionHealth, PotionTally(es, verdict, cbs, h))
    ensures var verdict := old(Verdicts(world, player, cbs));
      forall w | w in ws :: w.potionsCollected == old(w.potionsCollected) + WatchTally(es, verdict, cbs, old(Reporters(cbs)), w)
    ensures var verdict := old(Verdicts(world, player, cbs));
      forall x | x in world :: x.wood == ToppedUp(old(x.wood), MaxWood, LogWood, LogTally(es, verdict, cbs, x))
  {
    CollisionLoop(es, player, cbs, world, hs, ws);
    ghost var l, consumed, obs := old(Books(world, hs, ws)), old(Verdicts(world, player, cbs)), old(Reporters(cbs));
    AccountDeletes(l, es, consumed, cbs, obs);
    AccountHeals(l, es, consumed, cbs, obs);
    AccountCounts(l, es, consumed, cbs, obs);
    AccountGathers(l, es, consumed, cbs, obs);
  }

  /** The loop of the collision pass over the entity list, keeping the ledger of what it has changed. */
  method CollisionLoop(es: seq<Entity>, player: Entity, cbs: map<EntityType, Callback>, ghost world: set<Entity>,
                       ghost hs: set<HealthComponent>, ghost ws: set<AchievementObserver>)
    requires Wired(cbs, world, es, hs) && Watched(cbs, ws)
    modifies world`deleted, world`wood, hs`currentHealth, ws`potionsCollected
    ensures Mirrors(Account(old(Books(world, hs, ws)), es, old(Verdicts(world, player, cbs)), cbs, old(Reporters(cbs))), world, hs, ws)
  {
    ghost var start := Books(world, hs, ws);
    ghost var consumed := Verdicts(world, player, cbs);
    ghost var obs := Reporters(cbs);
    ghost var done: seq<Entity> := [];
    ghost var l := start;
    assert Reports(cbs, obs, ws);
    var j := 0;
    while j < |es|
      invariant 0 <= j <= |es| && done == es[..j]
      invariant forall k | k in cbs :: cbs[k].target.observer == obs[cbs[k].target]
      invariant forall x | x in world :: x in consumed && consumed[x] == Collected(player, cbs, x)
      invariant l == Account(start, done, consumed, cbs, obs)
      invariant Mirrors(l, world, hs, ws)
    {
      assert es[j] in world;
      CollisionStep(player, cbs, world, es[j], hs, ws, consumed, obs, l);
      AccountSnoc(start, done, es[j], consumed, cbs, obs);
      PrefixSnoc(es, j);
      l := Credit(l, es[j], consumed, cbs, obs);
      done := done + [es[j]];
      j := j + 1;
    }
    assert es[..j] == es;
  }

  /** One iteration of the collision loop, against the verdicts and observers taken before the pass. */
  method CollisionStep(player: Entity, cbs: map<EntityType, Callback>, ghost world: set<Entity>, ent: Entity,
                       ghost hs: set<HealthComponent>, ghost ws: set<AchievementObserver>,
                       ghost consumed: map<Entity, bool>, ghost obs: map<Entity, AchievementObserver?>, ghost l: Ledger)
    requires Wired(cbs, world, [ent], hs) && Reports(cbs, obs, ws)
    requires forall k | k in cbs :: cbs[k].target.observer == obs[cbs[k].target]
    requires forall x | x in world :: x in consumed && consumed[x] == Collected(player, cbs, x)
    requires Mirrors(l, world, hs, ws)
    modifies world`wood, ent`deleted, hs`currentHealth, ws`potionsCollected
    ensures Mirrors(Credit(l, ent, consumed, cbs, obs), world, hs, ws)
    ensures forall k | k in cbs :: cbs[k].target.observer == obs[cbs[k].target]
    ensures forall x | x in world :: x in consumed && consumed[x] == Collected(player, cbs, x)
  {
    if ent != player && Intersects(player.boundingBox, ent.boundingBox) && ent.kind in cbs {
      var cb := cbs[ent.kind];
      var t := cb.target;
      assert t in world && HealthOf(t) <= hs && t.Watchers() <= ws;
      assert Fed(ent, consumed, cbs) == Consumes(Call(cb, ent));
      Deliver(player, cbs, cb, ent, world, hs, ws, consumed, obs, l);
    } else {
      assert !Fed(ent, consumed, cbs);
    }
  }

  /** The call of one iteration: `ent` is handed to its kind's callback `cb`, and the ledger takes its credit. */
  method Deliver(player: Entity, cbs: map<EntityType, Callback>, cb: Callback, ent: Entity, ghost world: set<Entity>, ghost hs: set<HealthComponent>,
                 ghost ws: set<AchievementObserver>, ghost consumed: map<Entity, bool>,
                 ghost obs: map<Entity, AchievementObserver?>, ghost l: Ledger)
    requires cb.target.variant == PlayerClass && cb.target in world && ent in world
    requires HealthOf(cb.target) <= hs && cb.target.Watchers() <= ws
    requires cb.target in obs && obs[cb.target] == cb.target.observer
    requires ent.kind in cbs && cbs[ent.kind] == cb && Fed(ent, consumed, cbs) == Consumes(Call(cb, ent))
    requires Mirrors(l, world, hs, ws)
    modifies world`wood, ent`deleted, hs`currentHealth, ws`potionsCollected
    ensures Mirrors(Credit(l, ent, consumed, cbs, obs), world, hs, ws)
    ensures forall x | x in world :: Collected(player, cbs, x) == old(Collected(player, cbs, x))
  {
    Settle(cbs, cb, ent, world, hs, ws, consumed, obs, l);
    forall x | x in world
      ensures Collected(player, cbs, x) == old(Collected(player, cbs, x))
    {
      if x.kind in cbs {
        var t := cbs[x.kind].target;
        assert t.attacking == old(t.attacking) && t.AnimInAction() == old(t.AnimInAction());
      }
    }
  }

  /** The callback run of `Deliver`, against the ledger. */
  method Settle(cbs: map<EntityType, Callback>, cb: Callback, ent: Entity, ghost world: set<Entity>, ghost hs: set<HealthComponent>,
                ghost ws: set<AchievementObserver>, ghost consumed: map<Entity, bool>,
                ghost obs: map<Entity, AchievementObserver?>, ghost l: Ledger)
    requires cb.target.variant == PlayerClass && cb.target in world && ent in world
    requires HealthOf(cb.target) <= hs && cb.target.Watchers() <= ws
    requires cb.target in obs && obs[cb.target] == cb.target.observer
    requires ent.kind in cbs && cbs[ent.kind] == cb && Fed(ent, consumed, cbs) == Consumes(Call(cb, ent))
    requires Mirrors(l, world, hs, ws)
    modifies world`wood, ent`deleted, hs`currentHealth, ws`potionsCollected
    ensures Mirrors(Credit(l, ent, consumed, cbs, obs), world, hs, ws)
  {
    RunCallback(cb, ent, hs, ws, world);
  }

  /** Every registered callback is bound to a Player the game holds. */
  lemma Targets(g: Game)
    requires g.Valid()
    ensures forall k | k in g.collisionCallbacks ::
      var t := g.collisionCallbacks[k].target;
      t in g.world && t.variant == PlayerClass
  {
  }

  /**
   * A registered callback handed `ent`: the bound player's potion or log
   * handler. A consumed Potion restores `PotionHealth` (clamped) to the
   * player and counts with its observer; a consumed Log adds `LogWood`
   * (clamped) to its wood; anything not consumed changes nothing. No other
   * health component of `hs`, observer of `ws` or entity of `world` changes.
   */
  method RunCallback(cb: Callback, ent: Entity, ghost hs: set<HealthComponent>, ghost ws: set<AchievementObserver>,
                     ghost world: set<Entity>)
    requires cb.target.variant == PlayerClass
    modifies cb.target`wood, ent`deleted, HealthOf(cb.target)`currentHealth, cb.target.Watchers()`potionsCollected
    ensures ent.deleted == (old(ent.deleted) || old(Consumes(Call(cb, ent))))
    ensures var h := cb.target.healthComp; var fed := old(Consumes(Call(cb, ent)));
      h != null ==>
        h.currentHealth == if cb.PotionCallback? && fed then Clamp(old(h.currentHealth) + PotionHealth, h.maxHealth) else old(h.currentHealth)
    ensures var w := cb.target.observer; var fed := old(Consumes(Call(cb, ent)));
      w != null ==> w.potionsCollected == old(w.potionsCollected) + if cb.PotionCallback? && fed then 1 else 0
    ensures var t := cb.target; var fed := old(Consumes(Call(cb, ent)));
      t.wood == if cb.LogCallback? && fed then Clamp(old(t.wood) + LogWood, MaxWood) else old(t.wood)
    ensures forall h | h in hs && h != cb.target.healthComp :: h.currentHealth == old(h.currentHealth)
    ensures forall w | w in ws && w != cb.target.observer :: w.potionsCollected == old(w.potionsCollected)
    ensures forall x | x in world && x != cb.target :: x.wood == old(x.wood)
    ensures forall x | x in world && x != ent :: x.deleted == old(x.deleted)
  {
    match cb
    case PotionCallback(t) =>
      var _ := t.HandlePotionCollision(ent);
    case LogCallback(t) =>
      t.HandleLogCollision(ent);
  }

  // ---------------------------------------------------------------------
  // Input

  /** The player's input handler, when there is a player with an input component. */
  function PlayerHandlers(g: Game): set<Inputs.PlayerInputHandler>
    reads g`player
  {
    if g.player != null && g.player.inputComp != null then {g.player.inputComp.handler} else {}
  }

  /**
   * `handleInput()`: the global handler's command (Pause on Escape) runs
   * first, then the player's input component polls the keys and runs its
   * queue.
   */
  method HandleInput(g: Game, keys: Inputs.KeyState)
    modifies g`paused, g`showDebugBounds, Commands.PlayerSet(g)`attacking, Commands.PlayerSet(g)`shouting,
      Commands.PlayerVelocity(g), PlayerHandlers(g)
    ensures g.paused == (old(g.paused) != (Inputs.Escape in keys))
    ensures g.showDebugBounds == old(g.showDebugBounds)
    ensures g.player != null && g.player.inputComp != null ==>
      var h := g.player.inputComp.handler;
      h.commandQueue == Inputs.CommandsFor(h.inputMode, keys) &&
      (g.player.velocityComp != null ==> g.player.velocityComp.velocity == Commands.SteerAll(h.commandQueue, Origin)) &&
      g.player.attacking == (old(g.player.attacking) || Inputs.Attack in h.commandQueue) &&
      g.player.shouting == (old(g.player.shouting) || Inputs.Shout in h.commandQueue)
    ensures g.player == null || g.player.inputComp == null ==>
      g.player != null ==> g.player.attacking == old(g.player.attacking) && g.player.shouting == old(g.player.shouting)
  {
    var cmd := Inputs.GlobalCommand(keys);
    if cmd.Some? {
      Commands.Execute(g, cmd.value);
    }
    var player := g.GetPlayer();
    if player != null && player.inputComp != null {
      Commands.InputComponentUpdate(g, player.inputComp, keys);
    }
  }
}
