// The system loops of a frame (Game.cpp): the three ways of running the
// systems over the stored entities (`bigArray`, `updateArchetypes`,
// `updatePackedArray`) and the order in which each calls the systems.

module Frames {
  import opened Wrappers
  import opened Geometry
  import opened Components
  import opened SpriteSheets
  import opened Entities
  import opened PlayerRules
  import opened Systems
  import opened Games
  import opened SystemUpdates
  import opened Observers
  import Commands
  import Inputs

  // ---------------------------------------------------------------------
  // The order in which the loops call `sys->update(game, ent, elapsed)`

  /** One call `sys->update(game, ent, elapsed)`, by the class of the system and the entity. */
  datatype Visit = Visit(system: SystemKind, entity: Entity)

  /** The calls of one system over a list: each entity it validates, in list order. */
  function Pass(s: System, es: seq<Entity>): (r: seq<Visit>)
    reads Games.Elements(es)`componentSet
    ensures |r| <= |es|
    decreases |es|
  {
    if es == [] then []
    else
      var e := es[|es| - 1];
      Pass(s, es[..|es| - 1]) + (if Validate(s, e.componentSet) then [Visit(s.kind, e)] else [])
  }

  /** System-major order, as `bigArray` and `updatePackedArray` loop: every system's pass, in system order. */
  function SystemMajor(systems: seq<System>, es: seq<Entity>): (r: seq<Visit>)
    reads Games.Elements(es)`componentSet
    decreases |systems|
  {
    if systems == [] then [] else SystemMajor(systems[..|systems| - 1], es) + Pass(systems[|systems| - 1], es)
  }

  /** The calls for one entity, in system order: each system that validates it. */
  function EntityVisits(systems: seq<System>, e: Entity): (r: seq<Visit>)
    reads e`componentSet
    ensures |r| <= |systems|
    decreases |systems|
  {
    if systems == [] then []
    else
      var s := systems[|systems| - 1];
      EntityVisits(systems[..|systems| - 1], e) + (if Validate(s, e.componentSet) then [Visit(s.kind, e)] else [])
  }

  /** Entity-major order over one bucket, as `updateArchetypes` loops inside a bucket. */
  function EntityMajor(systems: seq<System>, es: seq<Entity>): (r: seq<Visit>)
    reads Games.Elements(es)`componentSet
    decreases |es|
  {
    if es == [] then [] else EntityMajor(systems, es[..|es| - 1]) + EntityVisits(systems, es[|es| - 1])
  }

  /** The calls of `updateArchetypes`: bucket by bucket, each in entity-major order. */
  function ArchetypeVisits(systems: seq<System>, archs: seq<Archetype>): (r: seq<Visit>)
    reads BucketMembers(archs)`componentSet
    decreases |archs|
  {
    if archs == [] then []
    else ArchetypeVisits(systems, archs[..|archs| - 1]) + EntityMajor(systems, archs[|archs| - 1].entities)
  }

  // ---------------------------------------------------------------------
  // Properties of the orders

  /** A system's pass calls it on exactly the listed entities it validates. */
  lemma {:induction false} PassMembership(s: System, es: seq<Entity>, v: Visit)
    ensures v in Pass(s, es) <==> v.system == s.kind && v.entity in es && Validate(s, v.entity.componentSet)
    decreases |es|
  {
    if es != [] {
      var p := es[..|es| - 1];
      PassMembership(s, p, v);
      assert es == p + [es[|es| - 1]];
    }
  }

  /** In system-major order, a call is made exactly for a listed entity and a system that validates it. */
  lemma {:induction false} SystemMajorMembership(systems: seq<System>, es: seq<Entity>, v: Visit)
    ensures v in SystemMajor(systems, es) <==>
      v.entity in es && exists s :: s in systems && s.kind == v.system && Validate(s, v.entity.componentSet)
    decreases |systems|
  {
    if systems != [] {
      var p, last := systems[..|systems| - 1], systems[|systems| - 1];
      SystemMajorMembership(p, es, v);
      PassMembership(last, es, v);
      assert systems == p + [last];
    }
  }

  /** The calls for one entity are exactly those of the systems that validate it, all on that entity. */
  lemma {:induction false} EntityVisitsMembership(systems: seq<System>, e: Entity, v: Visit)
    ensures v in EntityVisits(systems, e) <==>
      v.entity == e && exists s :: s in systems && s.kind == v.system && Validate(s, e.componentSet)
    decreases |systems|
  {
    if systems != [] {
      var p, last := systems[..|systems| - 1], systems[|systems| - 1];
      EntityVisitsMembership(p, e, v);
      assert systems == p + [last];
    }
  }

  /** Entity-major order over a bucket makes the same calls as system-major order, in another order. */
  lemma {:induction false} EntityMajorMembership(systems: seq<System>, es: seq<Entity>, v: Visit)
    ensures v in EntityMajor(systems, es) <==> v in SystemMajor(systems, es)
    decreases |es|
  {
    SystemMajorMembership(systems, es, v);
    if es != [] {
      var p, last := es[..|es| - 1], es[|es| - 1];
      EntityMajorMembership(systems, p, v);
      SystemMajorMembership(systems, p, v);
      EntityVisitsMembership(systems, last, v);
      assert es == p + [last];
    }
  }

  /** The systems the game constructs, as the system-major loops see them: one pass each, in order. */
  lemma GameSystemsOrder(es: seq<Entity>)
    ensures SystemMajor(GameSystems, es) ==
      Pass(NewSystem(InputSystem), es) + Pass(NewSystem(MovementSystem), es) + Pass(NewSystem(ColliderSystem), es) +
      Pass(NewSystem(GameplaySystem), es) + Pass(NewSystem(PrintDebugSystem), es) + Pass(NewSystem(TTLSystem), es)
  {
    var s := GameSystems;
    assert s[..1][..0] == [] && s[..2][..1] == s[..1] && s[..3][..2] == s[..2];
    assert s[..4][..3] == s[..3] && s[..5][..4] == s[..4] && s[..6][..5] == s[..5] && s[..6] == s;
    assert SystemMajor(s[..1], es) == Pass(s[0], es);
    assert SystemMajor(s[..2], es) == SystemMajor(s[..1], es) + Pass(s[1], es);
    assert SystemMajor(s[..3], es) == SystemMajor(s[..2], es) + Pass(s[2], es);
    assert SystemMajor(s[..4], es) == SystemMajor(s[..3], es) + Pass(s[3], es);
    assert SystemMajor(s[..5], es) == SystemMajor(s[..4], es) + Pass(s[4], es);
    assert SystemMajor(s, es) == SystemMajor(s[..5], es) + Pass(s[5], es);
  }

  /** The Gameplay system's pass is empty: its constructor sets no mask bit. */
  lemma {:induction false} GameplayPassEmpty(es: seq<Entity>)
    ensures Pass(NewSystem(GameplaySystem), es) == []
    decreases |es|
  {
    if es != [] {
      GameplayPassEmpty(es[..|es| - 1]);
    }
  }

  /** So no loop of the game ever calls the Gameplay system, in either order. */
  lemma GameplayNeverRuns(es: seq<Entity>, v: Visit)
    ensures v in SystemMajor(GameSystems, es) ==> v.system != GameplaySystem
    ensures v in EntityMajor(GameSystems, es) ==> v.system != GameplaySystem
  {
    SystemMajorMembership(GameSystems, es, v);
    EntityMajorMembership(GameSystems, es, v);
    if v in SystemMajor(GameSystems, es) {
      var s :| s in GameSystems && s.kind == v.system && Validate(s, v.entity.componentSet);
      if s.kind == GameplaySystem {
        GameplayNeverValidates(v.entity.componentSet);
      }
    }
  }

  /**
   * An entity held by two buckets is passed to each system that validates
   * it twice: once in the first bucket's run and once in the second's.
   */
  lemma TwoBucketsTwoCalls(systems: seq<System>, a1: Archetype, a2: Archetype, e: Entity, s: System)
    requires e in a1.entities && e in a2.entities && s in systems && Validate(s, e.componentSet)
    ensures var r := ArchetypeVisits(systems, [a1, a2]);
      exists i, j :: 0 <= i < j < |r| && r[i] == Visit(s.kind, e) && r[j] == Visit(s.kind, e)
  {
    var v := Visit(s.kind, e);
    var r1, r2 := EntityMajor(systems, a1.entities), EntityMajor(systems, a2.entities);
    assert v in r1 by {
      SystemMajorMembership(systems, a1.entities, v);
      EntityMajorMembership(systems, a1.entities, v);
    }
    assert v in r2 by {
      SystemMajorMembership(systems, a2.entities, v);
      EntityMajorMembership(systems, a2.entities, v);
    }
    assert [a1, a2][..1] == [a1] && [a1][..0] == [];
    assert ArchetypeVisits(systems, [a1]) == ArchetypeVisits(systems, []) + r1 == r1;
    assert ArchetypeVisits(systems, [a1, a2]) == r1 + r2;
    TwiceInConcat(r1, r2, v);
  }

  lemma TwiceInConcat(r1: seq<Visit>, r2: seq<Visit>, v: Visit)
    requires v in r1 && v in r2
    ensures exists i, j :: 0 <= i < j < |r1 + r2| && (r1 + r2)[i] == v && (r1 + r2)[j] == v
  {
    var i :| 0 <= i < |r1| && r1[i] == v;
    var j :| 0 <= j < |r2| && r2[j] == v;
    assert (r1 + r2)[i] == v && (r1 + r2)[|r1| + j] == v;
  }

  // ---------------------------------------------------------------------
  // TTL countdowns along an order of calls

  /** How many calls of `trace` are TTL updates of an entity holding the TTL component t. */
  function TtlTicks(t: TTLComponent, trace: seq<Visit>): (r: nat)
    ensures r <= |trace|
    decreases |trace|
  {
    if trace == [] then 0
    else
      var v := trace[|trace| - 1];
      TtlTicks(t, trace[..|trace| - 1]) + (if v.system == TTLSystem && v.entity.ttlComp == t then 1 else 0)
  }

  /** The ticks of two runs, one after the other, add up. */
  lemma {:induction false} TtlTicksAppend(t: TTLComponent, a: seq<Visit>, b: seq<Visit>)
    ensures TtlTicks(t, a + b) == TtlTicks(t, a) + TtlTicks(t, b)
    decreases |b|
  {
    if b != [] {
      var p := b[..|b| - 1];
      TtlTicksAppend(t, a, p);
      assert (a + b)[..|a + b| - 1] == a + p;
    } else {
      assert a + b == a;
    }
  }

  /** How many entities of `es` hold the TTL component t and carry the TTL bit. */
  function Holders(t: TTLComponent, es: seq<Entity>): (r: nat)
    reads Games.Elements(es)`componentSet
    ensures r <= |es|
    decreases |es|
  {
    if es == [] then 0
    else
      var e := es[|es| - 1];
      Holders(t, es[..|es| - 1]) + (if e.ttlComp == t && TTL in e.componentSet then 1 else 0)
  }

  /** Entities appended whose TTL components differ from t add no holder of t. */
  lemma {:induction false} HoldersAppendOthers(t: TTLComponent, es: seq<Entity>, more: seq<Entity>)
    requires forall i | 0 <= i < |more| :: more[i].ttlComp != t
    ensures Holders(t, es + more) == Holders(t, es)
    decreases |more|
  {
    if more != [] {
      var p := more[..|more| - 1];
      HoldersAppendOthers(t, es, p);
      assert (es + more)[..|es + more| - 1] == es + p;
    } else {
      assert es + more == es;
    }
  }

  /** A component held by exactly one listed entity, which carries the TTL bit, has one holder. */
  lemma {:induction false} SoleHolder(t: TTLComponent, es: seq<Entity>, k: nat)
    requires k < |es| && es[k].ttlComp == t && TTL in es[k].componentSet
    requires forall i | 0 <= i < |es| && i != k :: es[i].ttlComp != t
    ensures Holders(t, es) == 1
    decreases |es|
  {
    var p := es[..|es| - 1];
    if k < |es| - 1 {
      SoleHolder(t, p, k);
    } else {
      HoldersAppendOthers(t, [], p);
      assert [] + p == p;
    }
  }

  /** The call a game system makes, or not, on one entity ticks t as that entity holds it. */
  lemma VisitTicks(s: System, t: TTLComponent, e: Entity)
    requires s in GameSystems
    ensures TtlTicks(t, if Validate(s, e.componentSet) then [Visit(s.kind, e)] else []) ==
      if s.kind == TTLSystem && e.ttlComp == t && TTL in e.componentSet then 1 else 0
  {
    var last := if Validate(s, e.componentSet) then [Visit(s.kind, e)] else [];
    if last != [] {
      assert last[..0] == [];
    }
    if s.kind == TTLSystem {
      assert s == NewSystem(TTLSystem);
      ConstructedMasks(e.componentSet);
    }
  }

  /** A pass of a game system ticks t once for each holder if it is the TTL system, and never otherwise. */
  lemma {:induction false} PassTicks(s: System, t: TTLComponent, es: seq<Entity>)
    requires s in GameSystems
    ensures TtlTicks(t, Pass(s, es)) == if s.kind == TTLSystem then Holders(t, es) else 0
    decreases |es|
  {
    if es != [] {
      var p, e := es[..|es| - 1], es[|es| - 1];
      PassTicks(s, t, p);
      var last := if Validate(s, e.componentSet) then [Visit(s.kind, e)] else [];
      assert Pass(s, es) == Pass(s, p) + last;
      TtlTicksAppend(t, Pass(s, p), last);
      VisitTicks(s, t, e);
    }
  }

  /**
   * One run of every system in system-major order ticks each TTL
   * component once for each listed entity that holds it with the TTL bit.
   */
  lemma SystemMajorTicks(t: TTLComponent, es: seq<Entity>)
    ensures TtlTicks(t, SystemMajor(GameSystems, es)) == Holders(t, es)
  {
    var s := GameSystems;
    GameSystemsOrder(es);
    var p0, p1, p2 := Pass(s[0], es), Pass(s[1], es), Pass(s[2], es);
    var p3, p4, p5 := Pass(s[3], es), Pass(s[4], es), Pass(s[5], es);
    PassTicks(s[0], t, es);
    PassTicks(s[1], t, es);
    PassTicks(s[2], t, es);
    PassTicks(s[3], t, es);
    PassTicks(s[4], t, es);
    PassTicks(s[5], t, es);
    TtlTicksAppend(t, p0, p1);
    TtlTicksAppend(t, p0 + p1, p2);
    TtlTicksAppend(t, p0 + p1 + p2, p3);
    TtlTicksAppend(t, p0 + p1 + p2 + p3, p4);
    TtlTicksAppend(t, p0 + p1 + p2 + p3 + p4, p5);
  }

  /** The calls for one entity in system order tick t once if the entity holds it with the TTL bit. */
  lemma {:induction false} EntityVisitsTicks(t: TTLComponent, e: Entity, n: nat)
    requires n <= |GameSystems|
    ensures TtlTicks(t, EntityVisits(GameSystems[..n], e)) ==
      if n == |GameSystems| && e.ttlComp == t && TTL in e.componentSet then 1 else 0
  {
    if n > 0 {
      var s := GameSystems[n - 1];
      assert GameSystems[..n][..n - 1] == GameSystems[..n - 1];
      EntityVisitsTicks(t, e, n - 1);
      TtlTicksAppend(t, EntityVisits(GameSystems[..n - 1], e), if Validate(s, e.componentSet) then [Visit(s.kind, e)] else []);
      VisitTicks(s, t, e);
    }
  }

  /** Entity-major order over a list ticks t once for each listed holder, as system-major order does. */
  lemma {:induction false} EntityMajorTicks(t: TTLComponent, es: seq<Entity>)
    ensures TtlTicks(t, EntityMajor(GameSystems, es)) == Holders(t, es)
    decreases |es|
  {
    if es != [] {
      var p, e := es[..|es| - 1], es[|es| - 1];
      EntityMajorTicks(t, p);
      EntityVisitsTicks(t, e, |GameSystems|);
      assert GameSystems[..|GameSystems|] == GameSystems;
      TtlTicksAppend(t, EntityMajor(GameSystems, p), EntityVisits(GameSystems, e));
    }
  }

  /** How many holders of t the buckets list, an entity counted once for each bucket that holds it. */
  function BucketHolders(t: TTLComponent, archs: seq<Archetype>): (r: nat)
    reads BucketMembers(archs)`componentSet
    decreases |archs|
  {
    if archs == [] then 0 else BucketHolders(t, archs[..|archs| - 1]) + Holders(t, archs[|archs| - 1].entities)
  }

  /** `updateArchetypes` ticks t once for each holder in each bucket. */
  lemma {:induction false} ArchetypeTicks(t: TTLComponent, archs: seq<Archetype>)
    ensures TtlTicks(t, ArchetypeVisits(GameSystems, archs)) == BucketHolders(t, archs)
    decreases |archs|
  {
    if archs != [] {
      var p, last := archs[..|archs| - 1], archs[|archs| - 1];
      ArchetypeTicks(t, p);
      EntityMajorTicks(t, last.entities);
      TtlTicksAppend(t, ArchetypeVisits(GameSystems, p), EntityMajor(GameSystems, last.entities));
    }
  }

  /** The TTL components, listed with their values, that every call so far has ticked as `trace` says. */
  ghost predicate TicksFrom(start: map<TTLComponent, int>, trace: seq<Visit>)
    reads start.Keys
  {
    forall t | t in start :: t.ttl == TtlAfter(start[t], TtlTicks(t, trace))
  }

  /** The values of the game's TTL components. */
  ghost function TtlValues(g: Game): (r: map<TTLComponent, int>)
    reads g`world, TtlComps(g)
    ensures r.Keys == TtlComps(g)
  {
    map t | t in TtlComps(g) :: t.ttl
  }

  /** One call that ticks only the TTL component of its entity, and only if it is a TTL update. */
  lemma CallTicks(mid: map<TTLComponent, int>, v: Visit)
    requires forall t | t in mid :: t.ttl == if v.system == TTLSystem && t == v.entity.ttlComp then TtlStep(mid[t]) else mid[t]
    ensures TicksFrom(mid, [v])
  {
    assert [v][..0] == [];
  }

  /** A run that ends after another, from the values the first left, ticks as both together. */
  lemma TicksCompose(start: map<TTLComponent, int>, trace: seq<Visit>, more: seq<Visit>, mid: map<TTLComponent, int>)
    requires start.Keys == mid.Keys
    requires forall t | t in mid :: mid[t] == TtlAfter(start[t], TtlTicks(t, trace))
    requires TicksFrom(mid, more)
    ensures TicksFrom(start, trace + more)
  {
    forall t | t in start
      ensures t.ttl == TtlAfter(start[t], TtlTicks(t, trace + more))
    {
      TtlTicksAppend(t, trace, more);
      TtlAfterAdd(start[t], TtlTicks(t, trace), TtlTicks(t, more));
    }
  }

  // ---------------------------------------------------------------------
  // The three store strategies' loops

  /** Every member of a bucket is a bucket member of the game. */
  lemma {:induction false} InBucket(archs: seq<Archetype>, i: nat, x: Entity)
    requires i < |archs| && x in archs[i].entities
    ensures x in BucketMembers(archs)
    decreases |archs|
  {
    if i < |archs| - 1 {
      InBucket(archs[..|archs| - 1], i, x);
    }
  }

  /** The members of the first i buckets are bucket members of the game. */
  lemma {:induction false} BucketPrefix(archs: seq<Archetype>, i: nat)
    requires i <= |archs|
    ensures BucketMembers(archs[..i]) <= BucketMembers(archs)
    decreases |archs|
  {
    if i < |archs| {
      assert archs[..|archs| - 1][..i] == archs[..i];
      BucketPrefix(archs[..|archs| - 1], i);
    } else {
      assert archs[..i] == archs;
    }
  }

  /**
   * `if (sys->validate(ent)) sys->update(game, ent, elapsed)`. A system of
   * the game never throws on an entity it validates.
   */
  method UpdateIfValid(g: Game, s: System, e: Entity, elapsed: real, keys: Inputs.KeyState) returns (called: bool)
    requires g.Valid() && s in GameSystems && e in g.world
    modifies g`paused, g`showDebugBounds, g.world`deleted, g.world`wood, g.world`attacking, g.world`shouting, g.Objs()
    ensures g.Valid() && g.paused == old(g.paused) && g.showDebugBounds == old(g.showDebugBounds)
    ensures called == Validate(s, e.componentSet)
    ensures forall t | t in old(TtlComps(g)) ::
      t.ttl == if called && s.kind == TTLSystem && t == e.ttlComp then TtlStep(old(t.ttl)) else old(t.ttl)
    ensures Kept(g)
  {
    called := Validate(s, e.componentSet);
    if called {
      assert e.Valid() && e.Shape();
      ValidatedNeverFails(s, e);
      PartsAreNotEntities(g);
      var status := Dispatch(g, s, e, elapsed, keys);
      assert status.Success?;
    }
  }

  /** One iteration of a pass: `es[j]` through system `s`, extending the visits of the prefix before it. */
  method PassStep(g: Game, s: System, es: seq<Entity>, j: nat, ghost trace: seq<Visit>, ghost start: map<TTLComponent, int>,
                  elapsed: real, keys: Inputs.KeyState) returns (ghost next: seq<Visit>)
    requires g.Valid() && s in GameSystems && forall x | x in es :: x in g.world
    requires j < |es| && trace == Pass(s, es[..j])
    requires start.Keys == TtlComps(g) && TicksFrom(start, trace)
    modifies g`paused, g`showDebugBounds, g.world`deleted, g.world`wood, g.world`attacking, g.world`shouting, g.Objs()
    ensures g.Valid() && g.paused == old(g.paused) && g.showDebugBounds == old(g.showDebugBounds)
    ensures next == Pass(s, es[..j + 1]) && g.Objs() == old(g.Objs())
    ensures TicksFrom(start, next)
    ensures Kept(g)
  {
    label Before:
    PartsAreNotEntities(g);
    ghost var mid := TtlValues(g);
    var called := UpdateIfValid(g, s, es[j], elapsed, keys);
    forall x | x in Games.Elements(es[..j])
      ensures x.componentSet == old@Before(x.componentSet)
    {
      assert x in old@Before(g.world);
    }
    assert Pass(s, es[..j]) == trace;
    assert es[..j + 1][..j] == es[..j];
    next := if called then trace + [Visit(s.kind, es[j])] else trace;
    if called {
      CallTicks(mid, Visit(s.kind, es[j]));
      TicksCompose(start, trace, [Visit(s.kind, es[j])], mid);
    }
  }

  /** One system over a list of the game's entities, in list order. */
  method RunPass(g: Game, s: System, es: seq<Entity>, elapsed: real, keys: Inputs.KeyState) returns (ghost trace: seq<Visit>)
    requires g.Valid() && s in GameSystems && forall x | x in es :: x in g.world
    modifies g`paused, g`showDebugBounds, g.world`deleted, g.world`wood, g.world`attacking, g.world`shouting, g.Objs()
    ensures g.Valid() && g.paused == old(g.paused) && g.showDebugBounds == old(g.showDebugBounds)
    ensures trace == Pass(s, es) && TicksFrom(old(TtlValues(g)), trace) && g.Objs() == old(g.Objs())
    ensures Kept(g)
  {
    PartsAreNotEntities(g);
    ghost var start := TtlValues(g);
    trace := [];
    var j := 0;
    while j < |es|
      invariant 0 <= j <= |es|
      invariant g.Valid() && g.paused == old(g.paused) && g.showDebugBounds == old(g.showDebugBounds) && Kept(g)
      invariant trace == Pass(s, es[..j]) && g.Objs() == old(g.Objs())
      invariant TicksFrom(start, trace)
    {
      PartsAreNotEntities(g);
      trace := PassStep(g, s, es, j, trace, start, elapsed, keys);
      j := j + 1;
    }
    assert es[..j] == es;
  }

  /** The systems up to `i`, then system `i`'s pass: the system-major visits up to `i + 1`. */
  lemma SystemMajorSnoc(systems: seq<System>, i: nat, es: seq<Entity>)
    requires i < |systems|
    ensures SystemMajor(systems[..i + 1], es) == SystemMajor(systems[..i], es) + Pass(systems[i], es)
  {
    assert systems[..i + 1][..i] == systems[..i];
  }

  /** One iteration of the system loop: system `i` over the whole list. */
  method SystemStep(g: Game, es: seq<Entity>, i: nat, ghost trace: seq<Visit>, ghost start: map<TTLComponent, int>,
                    elapsed: real, keys: Inputs.KeyState) returns (ghost next: seq<Visit>)
    requires g.Valid() && forall x | x in es :: x in g.world
    requires i < |GameSystems| && trace == SystemMajor(GameSystems[..i], es)
    requires start.Keys == TtlComps(g) && TicksFrom(start, trace)
    modifies g`paused, g`showDebugBounds, g.world`deleted, g.world`wood, g.world`attacking, g.world`shouting, g.Objs()
    ensures g.Valid() && g.paused == old(g.paused) && g.showDebugBounds == old(g.showDebugBounds)
    ensures next == SystemMajor(GameSystems[..i + 1], es) && g.Objs() == old(g.Objs())
    ensures TicksFrom(start, next)
    ensures Kept(g)
  {
    label Before:
    PartsAreNotEntities(g);
    ghost var mid := TtlValues(g);
    var t := RunPass(g, g.systems[i], es, elapsed, keys);
    TicksCompose(start, trace, t, mid);
    forall x | x in Games.Elements(es)
      ensures x.componentSet == old@Before(x.componentSet)
    {
      assert x in old@Before(g.world);
    }
    assert SystemMajor(GameSystems[..i], es) == trace;
    SystemMajorSnoc(GameSystems, i, es);
    next := trace + t;
  }

  /** Every system, in order, over a list of the game's entities: the loop of `bigArray` and `updatePackedArray`. */
  method RunSystems(g: Game, es: seq<Entity>, elapsed: real, keys: Inputs.KeyState) returns (ghost trace: seq<Visit>)
    requires g.Valid() && forall x | x in es :: x in g.world
    modifies g`paused, g`showDebugBounds, g.world`deleted, g.world`wood, g.world`attacking, g.world`shouting, g.Objs()
    ensures g.Valid() && g.paused == old(g.paused) && g.showDebugBounds == old(g.showDebugBounds)
    ensures trace == SystemMajor(GameSystems, es) && g.Objs() == old(g.Objs())
    ensures TicksFrom(old(TtlValues(g)), trace)
    ensures Kept(g)
  {
    PartsAreNotEntities(g);
    ghost var start := TtlValues(g);
    trace := [];
    var i := 0;
    while i < |g.systems|
      invariant 0 <= i <= |g.systems| == |GameSystems|
      invariant g.Valid() && g.paused == old(g.paused) && g.showDebugBounds == old(g.showDebugBounds) && Kept(g)
      invariant trace == SystemMajor(GameSystems[..i], es) && g.Objs() == old(g.Objs())
      invariant TicksFrom(start, trace)
    {
      PartsAreNotEntities(g);
      trace := SystemStep(g, es, i, trace, start, elapsed, keys);
      i := i + 1;
    }
    assert GameSystems[..i] == GameSystems;
  }

  /** The observers attached to the game's entities. */
  ghost function Watching(g: Game): set<AchievementObserver>
    reads g`world, g.world`observer
  {
    set x | x in g.world && x.observer != null :: x.observer
  }

  /** `bigArray(elapsed)`: system-major over the entity list. */
  method BigArray(g: Game, elapsed: real, keys: Inputs.KeyState) returns (ghost trace: seq<Visit>)
    requires g.Valid()
    modifies g`paused, g`showDebugBounds, g.world`deleted, g.world`wood, g.world`attacking, g.world`shouting, g.Objs()
    ensures g.Valid() && g.paused == old(g.paused) && g.showDebugBounds == old(g.showDebugBounds)
    ensures trace == SystemMajor(GameSystems, g.entities) && g.Objs() == old(g.Objs())
    ensures TicksFrom(old(TtlValues(g)), trace)
    ensures forall t | t in old(TtlComps(g)) :: t.ttl == TtlAfter(old(t.ttl), old(Holders(t, g.entities)))
    ensures forall t | t in old(TtlComps(g)) :: Holders(t, g.entities) == old(Holders(t, g.entities))
    ensures Watching(g) == old(Watching(g))
    ensures Kept(g)
  {
    PartsAreNotEntities(g);
    trace := RunSystems(g, g.entities, elapsed, keys);
    assert forall x | x in Games.Elements(g.entities) :: x.componentSet == old(x.componentSet);
    forall t | t in old(TtlComps(g))
      ensures t.ttl == TtlAfter(old(t.ttl), old(Holders(t, g.entities)))
    {
      SystemMajorTicks(t, g.entities);
    }
  }

  /** `updatePackedArray(elapsed)`: system-major over the packed store's dense list. */
  method UpdatePackedArray(g: Game, elapsed: real, keys: Inputs.KeyState) returns (ghost trace: seq<Visit>)
    requires g.Valid()
    modifies g`paused, g`showDebugBounds, g.world`deleted, g.world`wood, g.world`attacking, g.world`shouting, g.Objs()
    ensures g.Valid() && g.paused == old(g.paused) && g.showDebugBounds == old(g.showDebugBounds)
    ensures trace == SystemMajor(GameSystems, g.packedEntities.dense) && g.Objs() == old(g.Objs())
    ensures TicksFrom(old(TtlValues(g)), trace)
    ensures forall t | t in old(TtlComps(g)) :: t.ttl == TtlAfter(old(t.ttl), old(Holders(t, g.packedEntities.dense)))
    ensures Kept(g)
  {
    var dense := g.packedEntities.GetDense();
    PartsAreNotEntities(g);
    trace := RunSystems(g, dense, elapsed, keys);
    assert forall x | x in Games.Elements(dense) :: x.componentSet == old(x.componentSet);
    forall t | t in old(TtlComps(g))
      ensures t.ttl == TtlAfter(old(t.ttl), old(Holders(t, dense)))
    {
      SystemMajorTicks(t, dense);
    }
  }

  /** One iteration of the inner loop of `updateArchetypes`: system `i` on one entity. */
  method EntityStep(g: Game, e: Entity, i: nat, ghost trace: seq<Visit>, ghost start: map<TTLComponent, int>,
                    elapsed: real, keys: Inputs.KeyState) returns (ghost next: seq<Visit>)
    requires g.Valid() && e in g.world
    requires i < |GameSystems| && trace == EntityVisits(GameSystems[..i], e)
    requires start.Keys == TtlComps(g) && TicksFrom(start, trace)
    modifies g`paused, g`showDebugBounds, g.world`deleted, g.world`wood, g.world`attacking, g.world`shouting, g.Objs()
    ensures g.Valid() && g.paused == old(g.paused) && g.showDebugBounds == old(g.showDebugBounds)
    ensures next == EntityVisits(GameSystems[..i + 1], e)
    ensures TicksFrom(start, next)
    ensures Kept(g)
  {
    assert GameSystems[..i + 1][..i] == GameSystems[..i];
    var s := g.systems[i];
    assert s == GameSystems[i];
    ghost var visits := EntityVisits(GameSystems[..i + 1], e);
    assert visits == trace + (if Validate(s, e.componentSet) then [Visit(s.kind, e)] else []);
    PartsAreNotEntities(g);
    ghost var mid := TtlValues(g);
    var called := UpdateIfValid(g, s, e, elapsed, keys);
    assert e.componentSet == old(e.componentSet);
    next := if called then trace + [Visit(s.kind, e)] else trace;
    if called {
      CallTicks(mid, Visit(s.kind, e));
      TicksCompose(start, trace, [Visit(s.kind, e)], mid);
    }
  }

  /** Every system that validates one entity, in system order: the inner loop of `updateArchetypes`. */
  method RunEntity(g: Game, e: Entity, elapsed: real, keys: Inputs.KeyState) returns (ghost trace: seq<Visit>)
    requires g.Valid() && e in g.world
    modifies g`paused, g`showDebugBounds, g.world`deleted, g.world`wood, g.world`attacking, g.world`shouting, g.Objs()
    ensures g.Valid() && g.paused == old(g.paused) && g.showDebugBounds == old(g.showDebugBounds)
    ensures trace == EntityVisits(GameSystems, e) && TicksFrom(old(TtlValues(g)), trace)
    ensures Kept(g)
  {
    PartsAreNotEntities(g);
    ghost var start := TtlValues(g);
    trace := [];
    var i := 0;
    while i < |g.systems|
      invariant 0 <= i <= |g.systems| == |GameSystems|
      invariant g.Valid() && g.paused == old(g.paused) && g.showDebugBounds == old(g.showDebugBounds) && Kept(g)
      invariant trace == EntityVisits(GameSystems[..i], e) && TicksFrom(start, trace)
    {
      PartsAreNotEntities(g);
      trace := EntityStep(g, e, i, trace, start, elapsed, keys);
      i := i + 1;
    }
    assert GameSystems[..i] == GameSystems;
  }

  /** One entity of a bucket through every system that validates it, extending the visits of the entities before it. */
  method BucketStep(g: Game, es: seq<Entity>, j: nat, ghost trace: seq<Visit>, ghost start: map<TTLComponent, int>,
                    elapsed: real, keys: Inputs.KeyState) returns (ghost next: seq<Visit>)
    requires g.Valid() && forall x | x in es :: x in g.world
    requires j < |es| && trace == EntityMajor(GameSystems, es[..j])
    requires start.Keys == TtlComps(g) && TicksFrom(start, trace)
    modifies g`paused, g`showDebugBounds, g.world`deleted, g.world`wood, g.world`attacking, g.world`shouting, g.Objs()
    ensures g.Valid() && g.paused == old(g.paused) && g.showDebugBounds == old(g.showDebugBounds)
    ensures next == EntityMajor(GameSystems, es[..j + 1]) && g.Objs() == old(g.Objs())
    ensures TicksFrom(start, next)
    ensures Kept(g)
  {
    assert es[..j + 1][..j] == es[..j];
    label Before:
    PartsAreNotEntities(g);
    ghost var mid := TtlValues(g);
    var t := RunEntity(g, es[j], elapsed, keys);
    TicksCompose(start, trace, t, mid);
    forall x | x in Games.Elements(es[..j])
      ensures x.componentSet == old@Before(x.componentSet)
    {
      assert x in old@Before(g.world);
    }
    assert EntityMajor(GameSystems, es[..j]) == trace;
    next := trace + t;
  }

  /** The entities of one bucket, each through every system that validates it. */
  method RunBucket(g: Game, es: seq<Entity>, elapsed: real, keys: Inputs.KeyState) returns (ghost trace: seq<Visit>)
    requires g.Valid() && forall x | x in es :: x in g.world
    modifies g`paused, g`showDebugBounds, g.world`deleted, g.world`wood, g.world`attacking, g.world`shouting, g.Objs()
    ensures g.Valid() && g.paused == old(g.paused) && g.showDebugBounds == old(g.showDebugBounds)
    ensures trace == EntityMajor(GameSystems, es) && TicksFrom(old(TtlValues(g)), trace)
    ensures Kept(g)
  {
    PartsAreNotEntities(g);
    ghost var start := TtlValues(g);
    trace := [];
    var j := 0;
    while j < |es|
      invariant 0 <= j <= |es|
      invariant g.Valid() && g.paused == old(g.paused) && g.showDebugBounds == old(g.showDebugBounds) && Kept(g)
      invariant trace == EntityMajor(GameSystems, es[..j]) && g.Objs() == old(g.Objs())
      invariant TicksFrom(start, trace)
    {
      PartsAreNotEntities(g);
      trace := BucketStep(g, es, j, trace, start, elapsed, keys);
      j := j + 1;
    }
    assert es[..j] == es;
  }

  /** One bucket of `updateArchetypes`, extending the visits of the buckets before it. */
  method ArchetypeStep(g: Game, archs: seq<Archetype>, i: nat, ghost trace: seq<Visit>, ghost start: map<TTLComponent, int>,
                       elapsed: real, keys: Inputs.KeyState) returns (ghost next: seq<Visit>)
    requires g.Valid() && archs == g.archetypes
    requires i < |archs| && trace == ArchetypeVisits(GameSystems, archs[..i])
    requires start.Keys == TtlComps(g) && TicksFrom(start, trace)
    modifies g`paused, g`showDebugBounds, g.world`deleted, g.world`wood, g.world`attacking, g.world`shouting, g.Objs()
    ensures g.Valid() && g.paused == old(g.paused) && g.showDebugBounds == old(g.showDebugBounds)
    ensures next == ArchetypeVisits(GameSystems, archs[..i + 1]) && g.Objs() == old(g.Objs())
    ensures TicksFrom(start, next)
    ensures Kept(g)
  {
    assert archs[..i + 1][..i] == archs[..i];
    forall x | x in archs[i].entities
      ensures x in g.world
    {
      InBucket(archs, i, x);
    }
    label Before:
    PartsAreNotEntities(g);
    ghost var mid := TtlValues(g);
    var t := RunBucket(g, archs[i].entities, elapsed, keys);
    TicksCompose(start, trace, t, mid);
    BucketPrefix(archs, i);
    forall x | x in BucketMembers(archs[..i])
      ensures x.componentSet == old@Before(x.componentSet)
    {
      assert x in old@Before(g.world);
    }
    assert ArchetypeVisits(GameSystems, archs[..i]) == trace;
    next := trace + t;
  }

  /** `updateArchetypes(elapsed)`: bucket by bucket, entity-major inside each bucket. */
  method UpdateArchetypes(g: Game, elapsed: real, keys: Inputs.KeyState) returns (ghost trace: seq<Visit>)
    requires g.Valid()
    modifies g`paused, g`showDebugBounds, g.world`deleted, g.world`wood, g.world`attacking, g.world`shouting, g.Objs()
    ensures g.Valid() && g.paused == old(g.paused) && g.showDebugBounds == old(g.showDebugBounds)
    ensures trace == ArchetypeVisits(GameSystems, g.archetypes) && g.Objs() == old(g.Objs())
    ensures TicksFrom(old(TtlValues(g)), trace)
    ensures forall t | t in old(TtlComps(g)) :: t.ttl == TtlAfter(old(t.ttl), old(BucketHolders(t, g.archetypes)))
    ensures Kept(g)
  {
    var archs := g.archetypes;
    PartsAreNotEntities(g);
    ghost var start := TtlValues(g);
    trace := [];
    var i := 0;
    while i < |archs|
      invariant 0 <= i <= |archs|
      invariant g.Valid() && g.paused == old(g.paused) && g.showDebugBounds == old(g.showDebugBounds) && Kept(g)
      invariant trace == ArchetypeVisits(GameSystems, archs[..i]) && g.Objs() == old(g.Objs())
      invariant TicksFrom(start, trace)
    {
      PartsAreNotEntities(g);
      trace := ArchetypeStep(g, archs, i, trace, start, elapsed, keys);
      i := i + 1;
    }
    assert archs[..i] == archs;
    assert forall x | x in BucketMembers(archs) :: x.componentSet == old(x.componentSet);
    forall t | t in old(TtlComps(g))
      ensures t.ttl == TtlAfter(old(t.ttl), old(BucketHolders(t, archs)))
    {
      ArchetypeTicks(t, archs);
    }
  }
}
