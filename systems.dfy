// The systems' required masks and the mask test (Systems.h and the
// constructors of TTLSystem.cpp, MovementSystem.cpp, ColliderSystem.cpp,
// InputSystem.cpp, PrintDebugSystem.cpp, GraphicsSystem.cpp and
// GameplaySystem.cpp).

module Systems {
  import opened Components

  /** The concrete system classes. */
  datatype SystemKind = InputSystem | MovementSystem | ColliderSystem | GameplaySystem
    | PrintDebugSystem | TTLSystem | GraphicsSystem

  /** A system: its class and the component mask its constructor turned on. */
  datatype System = System(kind: SystemKind, mask: Bitmask)

  /** The bits each constructor turns on; GameplaySystem's constructor turns on none. */
  function MaskOf(k: SystemKind): (m: Bitmask)
    ensures m == {} <==> k == GameplaySystem
  {
    match k
    case InputSystem => {INPUT}
    case MovementSystem => {VELOCITY, POSITION}
    case ColliderSystem => {COLLIDER}
    case GameplaySystem => {}
    case PrintDebugSystem => {COLLIDER}
    case TTLSystem => {TTL}
    case GraphicsSystem => {GRAPHICS}
  }

  /** A newly constructed system of class k. */
  function NewSystem(k: SystemKind): (s: System)
    ensures s.kind == k && s.mask == MaskOf(k)
  {
    System(k, MaskOf(k))
  }

  /** `validate(e)`: false for an empty mask, otherwise whether the entity's bits contain the mask. */
  predicate Validate(s: System, bits: Bitmask)
  {
    if s.mask == {} then false else Contains(bits, s.mask)
  }

  /** A system with no mask bits validates nothing. */
  lemma EmptyMaskValidatesNothing(s: System, bits: Bitmask)
    requires s.mask == {}
    ensures !Validate(s, bits)
  {
  }

  /** With some mask bit set, validation is exactly containment of the mask. */
  lemma ValidateIsContainment(s: System, bits: Bitmask)
    requires s.mask != {}
    ensures Validate(s, bits) <==> s.mask <= bits
  {
  }

  /** Turning more component bits on never turns a passing validation into a failing one. */
  lemma ValidateMonotone(s: System, bits: Bitmask, more: Bitmask)
    requires Validate(s, bits)
    ensures Validate(s, bits + more)
  {
    ContainsMonotone(bits, more, s.mask);
  }

  /** The Gameplay system, as constructed, rejects every entity. */
  lemma GameplayNeverValidates(bits: Bitmask)
    ensures !Validate(NewSystem(GameplaySystem), bits)
  {
  }

  /** The masks the other constructors turn on, written out. */
  lemma ConstructedMasks(bits: Bitmask)
    ensures Validate(NewSystem(TTLSystem), bits) <==> TTL in bits
    ensures Validate(NewSystem(MovementSystem), bits) <==> VELOCITY in bits && POSITION in bits
    ensures Validate(NewSystem(ColliderSystem), bits) <==> COLLIDER in bits
    ensures Validate(NewSystem(InputSystem), bits) <==> INPUT in bits
    ensures Validate(NewSystem(PrintDebugSystem), bits) <==> COLLIDER in bits
  {
  }
}
