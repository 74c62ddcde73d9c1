// Component kinds, capability masks and the plain-data components
// (Components.h, PositionComponent.h, VelocityComponent.cpp,
// HealthComponent.h, TTLComponent.h, ColliderComponent.h).

module Components {
  import opened Wrappers
  import opened Geometry

  /**
   * The component kinds. The enumeration's two sentinels, UNDEFINED (-1)
   * and COUNT (8), name no component and are not members here.
   */
  datatype ComponentID = INPUT | POSITION | VELOCITY | COLLIDER | GRAPHICS | HEALTH | LOGIC | TTL

  const COUNT: nat := 8

  /** The enumerator's integer value, which is also its bit in a mask. */
  function Ordinal(k: ComponentID): (n: nat)
    ensures n < COUNT
  {
    match k
    case INPUT => 0
    case POSITION => 1
    case VELOCITY => 2
    case COLLIDER => 3
    case GRAPHICS => 4
    case HEALTH => 5
    case LOGIC => 6
    case TTL => 7
  }

  function FromOrdinal(n: nat): (k: Option<ComponentID>)
    ensures k.Some? <==> n < COUNT
    ensures k.Some? ==> Ordinal(k.value) == n
  {
    if n == 0 then Some(INPUT) else if n == 1 then Some(POSITION)
    else if n == 2 then Some(VELOCITY) else if n == 3 then Some(COLLIDER)
    else if n == 4 then Some(GRAPHICS) else if n == 5 then Some(HEALTH)
    else if n == 6 then Some(LOGIC) else if n == 7 then Some(TTL) else None
  }

  /** Each kind has its own bit. */
  lemma OrdinalRoundTrip(k: ComponentID)
    ensures FromOrdinal(Ordinal(k)) == Some(k)
  {
  }

  lemma OrdinalInjective(a: ComponentID, b: ComponentID)
    ensures Ordinal(a) == Ordinal(b) ==> a == b
  {
  }

  /** A set of component kinds: the bits turned on in a Bitmask. */
  type Bitmask = set<ComponentID>

  /** `contains(mask)`: every bit of `mask` is on in `set`. */
  predicate Contains(bits: Bitmask, mask: Bitmask)
  {
    mask <= bits
  }

  /** Turning more bits on never breaks containment of a mask. */
  lemma ContainsMonotone(bits: Bitmask, more: Bitmask, mask: Bitmask)
    requires Contains(bits, mask)
    ensures Contains(bits + more, mask)
  {
  }

  // ---------------------------------------------------------------------
  // Position

  class PositionComponent {
    var position: Vec2

    constructor ()
      ensures position == Origin
    {
      position := Origin;
    }

    constructor At(x: real, y: real)
      ensures position == Vec2(x, y)
    {
      position := Vec2(x, y);
    }

    method SetPosition(x: real, y: real)
      modifies this
      ensures position == Vec2(x, y)
    {
      position := Vec2(x, y);
    }

    method SetPositionTo(p: Vec2)
      modifies this
      ensures position == p
    {
      position := p;
    }
  }

  // ---------------------------------------------------------------------
  // Velocity

  /** One integration step: each coordinate advances by velocity * speed * elapsed. */
  function Integrate(p: Vec2, v: Vec2, speed: real, elapsed: real): (q: Vec2)
    ensures q.x - p.x == v.x * speed * elapsed && q.y - p.y == v.y * speed * elapsed
  {
    Vec2(p.x + v.x * speed * elapsed, p.y + v.y * speed * elapsed)
  }

  lemma IntegrateStill(p: Vec2, v: Vec2, speed: real, elapsed: real)
    requires v == Origin || elapsed == 0.0 || speed == 0.0
    ensures Integrate(p, v, speed, elapsed) == p
  {
  }

  /** Two steps at the same velocity equal one step over the summed time. */
  lemma IntegrateAdditive(p: Vec2, v: Vec2, speed: real, t1: real, t2: real)
    ensures Integrate(Integrate(p, v, speed, t1), v, speed, t2) == Integrate(p, v, speed, t1 + t2)
  {
    assert v.x * speed * t1 + v.x * speed * t2 == v.x * speed * (t1 + t2);
    assert v.y * speed * t1 + v.y * speed * t2 == v.y * speed * (t1 + t2);
  }

  class VelocityComponent {
    var velocity: Vec2
    const speed: real

    constructor (spd: real)
      ensures velocity == Origin && speed == spd
    {
      velocity := Origin;
      speed := spd;
    }

    method SetVelocity(x: real, y: real)
      modifies this
      ensures velocity == Vec2(x, y)
    {
      velocity := Vec2(x, y);
    }

    /** Moves `pos` by one step; the velocity itself is untouched. */
    method Update(pos: PositionComponent, elapsed: real)
      modifies pos
      ensures pos.position == Integrate(old(pos.position), velocity, speed, elapsed)
    {
      var p := pos.position;
      p := Vec2(p.x + velocity.x * speed * elapsed, p.y + velocity.y * speed * elapsed);
      assert p == Integrate(pos.position, velocity, speed, elapsed);
      pos.SetPositionTo(p);
    }
  }

  // ---------------------------------------------------------------------
  // Health

  function Min(a: int, b: int): int { if a < b then a else b }
  function Max(a: int, b: int): int { if a < b then b else a }

  /** `max(0, min(v, hi))`: the value forced into [0, hi]. */
  function Clamp(v: int, hi: nat): (r: int)
    ensures 0 <= r <= hi
    ensures 0 <= v <= hi ==> r == v
    ensures v < 0 ==> r == 0
    ensures v > hi ==> r == hi
  {
    Max(0, Min(v, hi))
  }

  /** The health after applying a sequence of `changeHealth` deltas in order. */
  function ApplyDeltas(h: int, maxHealth: nat, deltas: seq<int>): int
    decreases |deltas|
  {
    if deltas == [] then h else ApplyDeltas(Clamp(h + deltas[0], maxHealth), maxHealth, deltas[1..])
  }

  /** From any health, any non-empty sequence of changes ends within [0, max]. */
  lemma {:induction false} ApplyDeltasInRange(h: int, maxHealth: nat, deltas: seq<int>)
    requires 0 <= h <= maxHealth || deltas != []
    ensures 0 <= ApplyDeltas(h, maxHealth, deltas) <= maxHealth
    decreases |deltas|
  {
    if deltas != [] {
      ApplyDeltasInRange(Clamp(h + deltas[0], maxHealth), maxHealth, deltas[1..]);
    }
  }

  /** Damage that would go below zero leaves exactly zero; healing past the maximum leaves the maximum. */
  lemma ClampSaturates(h: int, maxHealth: nat, d: int)
    requires 0 <= h <= maxHealth
    ensures h + d <= 0 ==> Clamp(h + d, maxHealth) == 0
    ensures h + d >= maxHealth ==> Clamp(h + d, maxHealth) == maxHealth
    ensures Clamp(h + 0, maxHealth) == h
  {
  }

  class HealthComponent {
    var currentHealth: int
    const maxHealth: nat

    predicate Valid()
      reads this
    {
      0 <= currentHealth <= maxHealth
    }

    /** The checked constructor; `NewHealth` models the throwing path. */
    constructor (startingHealth: int, maximumHealth: int)
      requires 0 <= startingHealth <= maximumHealth
      ensures Valid()
      ensures currentHealth == startingHealth && maxHealth == maximumHealth
    {
      currentHealth := startingHealth;
      maxHealth := maximumHealth;
    }

    /** Adds `delta` and clamps to [0, max]; the maximum itself is a constant. */
    method ChangeHealth(delta: int)
      modifies this`currentHealth
      ensures Valid()
      ensures currentHealth == Clamp(old(currentHealth) + delta, maxHealth)
    {
      currentHealth := currentHealth + delta;
      currentHealth := Max(0, Min(currentHealth, maxHealth));
    }
  }

  /** `new HealthComponent(s, m)`: throws invalid_argument unless 0 <= s <= m. */
  method NewHealth(startingHealth: int, maximumHealth: int) returns (r: Result<HealthComponent>)
    ensures r.Err? <==> startingHealth < 0 || startingHealth > maximumHealth
    ensures r.Err? ==> r.error.InvalidArgument?
    ensures r.Ok? ==> fresh(r.value) && r.value.Valid()
    ensures r.Ok? ==> r.value.currentHealth == startingHealth && r.value.maxHealth == maximumHealth
  {
    if startingHealth < 0 || startingHealth > maximumHealth {
      return Err(InvalidArgument("Invalid starting health value"));
    }
    var h := new HealthComponent(startingHealth, maximumHealth);
    return Ok(h);
  }

  // ---------------------------------------------------------------------
  // Time to live

  /** One TTL tick: decrement while positive. */
  function TtlStep(t: int): (r: int)
    ensures t > 0 ==> r == t - 1
    ensures t <= 0 ==> r == t
  {
    if t > 0 then t - 1 else t
  }

  function TtlAfter(t: int, n: nat): int
  {
    if n == 0 then t else TtlStep(TtlAfter(t, n - 1))
  }

  /** n ticks after m ticks are m + n ticks. */
  lemma {:induction false} TtlAfterAdd(t: int, m: nat, n: nat)
    ensures TtlAfter(TtlAfter(t, m), n) == TtlAfter(t, m + n)
  {
    if n > 0 {
      TtlAfterAdd(t, m, n - 1);
    }
  }

  /** After n ticks from a non-negative start, the TTL is max(t - n, 0). */
  lemma {:induction false} TtlAfterClosedForm(t: int, n: nat)
    requires t >= 0
    ensures TtlAfter(t, n) == if t >= n then t - n else 0
  {
    if n > 0 {
      TtlAfterClosedForm(t, n - 1);
    }
  }

  class TTLComponent {
    var ttl: int

    constructor (initialTTL: int)
      ensures ttl == initialTTL
    {
      ttl := initialTTL;
    }

    method Update()
      modifies this
      ensures ttl == TtlStep(old(ttl))
    {
      if ttl > 0 {
        ttl := ttl - 1;
      }
    }

    /** Same effect as `Update`. */
    method DecrementTTL()
      modifies this
      ensures ttl == TtlStep(old(ttl))
    {
      if ttl > 0 {
        ttl := ttl - 1;
      }
    }
  }

  // ---------------------------------------------------------------------
  // Collider

  class ColliderComponent {
    var boundingBox: Rect

    constructor (rect: Rect)
      ensures boundingBox == rect
    {
      boundingBox := rect;
    }

    /** The box becomes [pos, pos + size]; repeating the call changes nothing more. */
    method Update(pos: Vec2, size: Vec2)
      modifies this
      ensures boundingBox == SpanFrom(pos, size)
    {
      boundingBox := Rect(pos, Vec2(pos.x + size.x, pos.y + size.y));
    }

    predicate IntersectsWith(other: ColliderComponent)
      reads this, other
    {
      Intersects(boundingBox, other.boundingBox)
    }
  }

  /** Collider overlap is the rectangle test on the two boxes, so it is symmetric. */
  lemma ColliderIntersectsSymmetric(a: ColliderComponent, b: ColliderComponent)
    ensures a.IntersectsWith(b) == b.IntersectsWith(a)
  {
    IntersectsSymmetric(a.boundingBox, b.boundingBox);
  }
}
