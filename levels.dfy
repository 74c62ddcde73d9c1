// `Game::init(lines)` (Game.cpp): the characters of a level file become the
// tiles of a board as wide as the first line, and the Logs, Potions and the
// Player standing on them. Files come in as parameters: `disk` maps the
// image files that load to their sizes, `sheets` holds the text of the
// sprite-sheet files that open.

module Levels {
  import opened Wrappers
  import opened Geometry
  import opened Entities
  import opened Boards
  import opened Games
  import opened Observers
  import SpriteSheets

  const FloorImage: string := "img/floor.png"
  const WallImage: string := "img/wall.png"
  const LogImage: string := "img/log.png"
  const PotionImage: string := "img/potion.png"
  const PlayerSheetFile: string := "img/DwarfSpriteSheet_data.txt"

  // ---------------------------------------------------------------------
  // What a level asks for

  /** The steps of `init`: a tile, an entity built and added, or the new Player's observer and callbacks. */
  datatype Action =
    | Place(col: nat, row: nat, tile: TileType)
    | Build(kind: EntityType, col: nat, row: nat)
    | Attach

  function TileImage(t: TileType): string
  {
    match t
    case CORRIDOR => FloorImage
    case WALL => WallImage
  }

  /** The tile a character puts in its cell, if any. */
  function TileOf(ch: char): (r: Option<TileType>)
    ensures r == Some(WALL) <==> ch == 'w'
    ensures r == Some(CORRIDOR) <==> ch in {'.', 'x', 'p', '*'}
  {
    match ch
    case '.' => Some(CORRIDOR)
    case 'w' => Some(WALL)
    case 'x' => Some(CORRIDOR)
    case 'p' => Some(CORRIDOR)
    case '*' => Some(CORRIDOR)
    case _ => None
  }

  /** The kind of entity a character puts in its cell, if any. */
  function SpawnOf(ch: char): (r: Option<EntityType>)
    ensures r == Some(LOG) <==> ch == 'x'
    ensures r == Some(POTION) <==> ch == 'p'
    ensures r == Some(PLAYER) <==> ch == '*'
    ensures r.Some? ==> TileOf(ch) == Some(CORRIDOR)
  {
    match ch
    case 'x' => Some(LOG)
    case 'p' => Some(POTION)
    case '*' => Some(PLAYER)
    case _ => None
  }

  /** The steps of one character of the level, in the order of the `switch` arm. */
  function CellPlan(ch: char, col: nat, row: nat): (r: seq<Action>)
    ensures |r| <= 3
    ensures r == [] <==> TileOf(ch).None?
    ensures SpawnOf(ch).Some? ==> r[0] == Build(SpawnOf(ch).value, col, row)
    ensures TileOf(ch).Some? && SpawnOf(ch).None? ==> r == [Place(col, row, TileOf(ch).value)]
    ensures SpawnOf(ch).Some? ==> |r| >= 2 && r[1] == Place(col, row, CORRIDOR)
    ensures Attach in r <==> ch == '*'
  {
    match ch
    case '.' => [Place(col, row, CORRIDOR)]
    case 'w' => [Place(col, row, WALL)]
    case 'x' => [Build(LOG, col, row), Place(col, row, CORRIDOR)]
    case 'p' => [Build(POTION, col, row), Place(col, row, CORRIDOR)]
    case '*' => [Build(PLAYER, col, row), Place(col, row, CORRIDOR), Attach]
    case _ => []
  }

  /** The steps of one line, character by character. */
  function LinePlan(line: string, row: nat): seq<Action>
    decreases |line|
  {
    if line == [] then []
    else LinePlan(line[..|line| - 1], row) + CellPlan(line[|line| - 1], |line| - 1, row)
  }

  /** The steps of a whole level, line by line. */
  function Plan(lines: seq<string>): seq<Action>
    decreases |lines|
  {
    if lines == [] then []
    else Plan(lines[..|lines| - 1]) + LinePlan(lines[|lines| - 1], |lines| - 1)
  }

  // ---------------------------------------------------------------------
  // Which steps throw

  /** What decides whether a step throws: the board's size and the files that load. */
  datatype Env = Env(width: nat, height: nat, disk: map<string, SpriteSheets.IntVec>, sheetLoads: bool)

  /** `initSpriteSheet` on a new Player's blank sheet: the file opens and its lines load. */
  predicate SheetLoads(disk: map<string, SpriteSheets.IntVec>, sheets: map<string, seq<string>>)
  {
    PlayerSheetFile in sheets && SpriteSheets.Load(SpriteSheets.Blank, sheets[PlayerSheetFile], disk.Keys).ok
  }

  /**
   * A tile throws out of bounds or when its image does not load (the
   * board's cache only ever holds images that loaded); building the Player
   * throws when its sprite sheet does not load; nothing else throws.
   */
  predicate Fails(a: Action, env: Env)
  {
    match a
    case Place(c, r, t) => !(c < env.width && r < env.height) || TileImage(t) !in env.disk
    case Build(k, _, _) => k == PLAYER && !env.sheetLoads
    case Attach => false
  }

  /**
   * The steps of `plan` that run when the first step that throws ends
   * `init`: a prefix of the plan, none of whose steps throws, and either
   * all of it or stopped just before a step that throws.
   */
  function Performed(plan: seq<Action>, env: Env): (r: seq<Action>)
    ensures r <= plan
    ensures forall i | 0 <= i < |r| :: !Fails(r[i], env)
    ensures r != plan ==> Fails(plan[|r|], env)
    decreases |plan|
  {
    if plan == [] || Fails(plan[0], env) then []
    else
      var rest := Performed(plan[1..], env);
      assert [plan[0]] + plan[1..] == plan;
      [plan[0]] + rest
  }

  /** Running two plans in turn: the second starts only when the first ran to its end. */
  lemma {:induction false} PerformedConcat(p1: seq<Action>, p2: seq<Action>, env: Env)
    ensures Performed(p1 + p2, env) ==
      if Performed(p1, env) == p1 then p1 + Performed(p2, env) else Performed(p1, env)
    decreases |p1|
  {
    if p1 == [] {
      assert p1 + p2 == p2;
    } else if Fails(p1[0], env) {
      assert (p1 + p2)[0] == p1[0];
    } else {
      var x, t := p1[0], p1[1..];
      assert p1 == [x] + t;
      assert p1 + p2 == [x] + (t + p2);
      assert (p1 + p2)[1..] == t + p2;
      PerformedConcat(t, p2, env);
      var d := Performed(t, env);
      assert Performed(p1, env) == [x] + d;
      assert Performed(p1 + p2, env) == [x] + Performed(t + p2, env);
      if d == t {
        assert [x] + (t + Performed(p2, env)) == p1 + Performed(p2, env);
      } else {
        assert ([x] + d)[1..] == d;
      }
    }
  }

  /** A plan that stopped early stops at the same step inside any longer plan. */
  lemma PerformedPrefix(p: seq<Action>, q: seq<Action>, env: Env)
    requires p <= q && Performed(p, env) != p
    ensures Performed(q, env) == Performed(p, env)
  {
    assert q == p + q[|p|..];
    PerformedConcat(p, q[|p|..], env);
  }

  lemma PerformedOne(a: Action, env: Env)
    ensures Performed([a], env) == if Fails(a, env) then [] else [a]
  {
    assert [a][1..] == [];
  }

  lemma PerformedTwo(a: Action, b: Action, env: Env)
    ensures Performed([a, b], env) == if Fails(a, env) then [] else if Fails(b, env) then [a] else [a, b]
  {
    assert [a, b][1..] == [b];
    PerformedOne(b, env);
  }

  lemma PerformedThree(a: Action, b: Action, c: Action, env: Env)
    ensures Performed([a, b, c], env) ==
      if Fails(a, env) then [] else if Fails(b, env) then [a] else if Fails(c, env) then [a, b] else [a, b, c]
  {
    assert [a, b, c][1..] == [b, c];
    PerformedTwo(b, c, env);
  }

  /** The plan of a line's first k + 1 characters extends that of its first k by the plan of character k. */
  lemma LineStep(line: string, k: nat, row: nat)
    requires k < |line|
    ensures LinePlan(line[..k + 1], row) == LinePlan(line[..k], row) + CellPlan(line[k], k, row)
  {
    assert line[..k + 1][..k] == line[..k];
  }

  /** The plan of a line's prefix is a prefix of the line's plan. */
  lemma {:induction false} LinePrefix(line: string, k: nat, row: nat)
    requires k <= |line|
    ensures LinePlan(line[..k], row) <= LinePlan(line, row)
    decreases |line| - k
  {
    if k < |line| {
      LinePrefix(line, k + 1, row);
      LineStep(line, k, row);
    } else {
      assert line[..k] == line;
    }
  }

  /** The plan of the first r + 1 lines extends that of the first r by line r's. */
  lemma PlanStep(lines: seq<string>, r: nat)
    requires r < |lines|
    ensures Plan(lines[..r + 1]) == Plan(lines[..r]) + LinePlan(lines[r], r)
  {
    assert lines[..r + 1][..r] == lines[..r];
  }

  /** The plan of the first lines is a prefix of the level's plan. */
  lemma {:induction false} PlanPrefix(lines: seq<string>, r: nat)
    requires r <= |lines|
    ensures Plan(lines[..r]) <= Plan(lines)
    decreases |lines| - r
  {
    if r < |lines| {
      PlanPrefix(lines, r + 1);
      PlanStep(lines, r);
    } else {
      assert lines[..r] == lines;
    }
  }

  // ---------------------------------------------------------------------
  // What a level builds

  /** The kinds of the Build steps, in order. */
  function BuiltKinds(done: seq<Action>): seq<EntityType>
    decreases |done|
  {
    if done == [] then []
    else (if done[0].Build? then [done[0].kind] else []) + BuiltKinds(done[1..])
  }

  lemma {:induction false} BuiltKindsConcat(a: seq<Action>, b: seq<Action>)
    ensures BuiltKinds(a + b) == BuiltKinds(a) + BuiltKinds(b)
    decreases |a|
  {
    if a == [] {
      assert a + b == b;
    } else {
      assert (a + b)[0] == a[0] && (a + b)[1..] == a[1..] + b;
      BuiltKindsConcat(a[1..], b);
    }
  }

  /** The kinds of the entities added, in order. */
  function KindsOf(made: seq<Entity>): seq<EntityType>
    decreases |made|
  {
    if made == [] then [] else [made[0].kind] + KindsOf(made[1..])
  }

  lemma {:induction false} KindsConcat(a: seq<Entity>, b: seq<Entity>)
    ensures KindsOf(a + b) == KindsOf(a) + KindsOf(b)
    decreases |a|
  {
    if a == [] {
      assert a + b == b;
    } else {
      assert (a + b)[0] == a[0] && (a + b)[1..] == a[1..] + b;
      KindsConcat(a[1..], b);
    }
  }

  /** The last Player added, if any: the one `init` leaves as the game's player. */
  function LastPlayer(made: seq<Entity>): (r: Option<Entity>)
    ensures r.None? <==> forall i | 0 <= i < |made| :: made[i].kind != PLAYER
    ensures r.Some? ==> r.value in made && r.value.kind == PLAYER
    decreases |made|
  {
    if made == [] then None
    else
      var rest := LastPlayer(made[1..]);
      if rest.Some? then rest
      else if made[0].kind == PLAYER then Some(made[0])
      else None
  }

  lemma {:induction false} LastPlayerConcat(a: seq<Entity>, b: seq<Entity>)
    ensures LastPlayer(a + b) == if LastPlayer(b).Some? then LastPlayer(b) else LastPlayer(a)
    decreases |a|
  {
    if a == [] {
      assert a + b == b;
    } else {
      assert (a + b)[0] == a[0] && (a + b)[1..] == a[1..] + b;
      LastPlayerConcat(a[1..], b);
    }
  }

  /** The tile type a cell holds, if any. */
  function TypeOf(t: Tile?): Option<TileType>
  {
    if t == null then None else Some(t.tileType)
  }

  /** What cell `c` of a line's row should hold once the line is read: the tile of its character, or nothing. */
  function Expected(line: string, c: nat): Option<TileType>
  {
    if c < |line| then TileOf(line[c]) else None
  }

  // ---------------------------------------------------------------------
  // The board's cells, as a sequence

  /** Only cell k may differ. */
  ghost predicate Kept(after: seq<Tile?>, before: seq<Tile?>, k: int)
  {
    |after| == |before| && forall i | 0 <= i < |before| && i != k :: after[i] == before[i]
  }

  /** Cell k exists and holds a tile of type t. */
  ghost predicate Holds(cells: seq<Tile?>, k: int, t: TileType)
  {
    0 <= k < |cells| && TypeOf(cells[k]) == Some(t)
  }

  /** Row `row` of a board `w` wide shows the first `upTo` characters of `line`; its other cells are empty. */
  ghost predicate RowUpTo(cells: seq<Tile?>, line: string, row: nat, w: nat, upTo: nat)
  {
    forall c | 0 <= c < w && CellIndex(c, row, w) < |cells| ::
      if c < upTo then TypeOf(cells[CellIndex(c, row, w)]) == Expected(line, c) else cells[CellIndex(c, row, w)] == null
  }

  /** Only the cells of row `row` may differ. */
  ghost predicate OutsideBand(after: seq<Tile?>, before: seq<Tile?>, row: nat, w: nat)
  {
    |after| == |before| && forall i | 0 <= i < |before| && !(row * w <= i < row * w + w) :: after[i] == before[i]
  }

  /** Every line of the level is shown by its row. */
  ghost predicate Shows(cells: seq<Tile?>, lines: seq<string>, w: nat)
  {
    forall r | 0 <= r < |lines| :: RowUpTo(cells, lines[r], r, w, |lines[r]|)
  }

  /** Reading character `col` of the line leaves the row showing one more character. */
  lemma RowStep(before: seq<Tile?>, after: seq<Tile?>, line: string, row: nat, w: nat, col: nat)
    requires col < |line| && RowUpTo(before, line, row, w, col)
    requires Kept(after, before, CellIndex(col, row, w))
    requires TileOf(line[col]).None? ==> after == before
    requires TileOf(line[col]).Some? ==> col < w && Holds(after, CellIndex(col, row, w), TileOf(line[col]).value)
    ensures RowUpTo(after, line, row, w, col + 1)
  {
  }

  /** A step on cell `col` of the row changes nothing outside the row. */
  lemma BandStep(before: seq<Tile?>, after: seq<Tile?>, pre: seq<Tile?>, row: nat, w: nat, col: nat)
    requires OutsideBand(before, pre, row, w) && Kept(after, before, CellIndex(col, row, w))
    requires w <= col ==> after == before
    ensures OutsideBand(after, pre, row, w)
  {
  }

  /** The cells of two different rows are apart. */
  lemma BandsApart(c: nat, r: nat, row: nat, w: nat)
    requires c < w && r != row
    ensures !(row * w <= CellIndex(c, r, w) < row * w + w)
  {
    if r < row {
      MulMonotone(r + 1, row, w);
      assert (r + 1) * w == r * w + w;
    } else {
      MulMonotone(row + 1, r, w);
      assert (row + 1) * w == row * w + w;
    }
  }

  /** Reading one line leaves every other row as it was. */
  lemma OtherRow(before: seq<Tile?>, after: seq<Tile?>, line: string, r: nat, row: nat, w: nat, upTo: nat)
    requires OutsideBand(after, before, row, w) && r != row && RowUpTo(before, line, r, w, upTo)
    ensures RowUpTo(after, line, r, w, upTo)
  {
    forall c | 0 <= c < w && CellIndex(c, r, w) < |after|
      ensures after[CellIndex(c, r, w)] == before[CellIndex(c, r, w)]
    {
      BandsApart(c, r, row, w);
    }
  }

  // ---------------------------------------------------------------------
  // The steps

  /**
   * `buildEntityAt<T>(image, col, row)`: a new Log or Potion placed in its
   * cell and initialised from its image at item scale.
   */
  method MakeItem(kind: EntityType, image: string, col: nat, row: nat, disk: map<string, SpriteSheets.IntVec>)
    returns (e: Entity)
    requires kind == LOG || kind == POTION
    ensures fresh(e) && fresh(e.Slots()) && e.Valid() && e.Shape() && e.kind == kind
    ensures e.healthComp == null && e.observer == null
    ensures e.positionComp.position == ItemPlacement(col, row)
    ensures e.spriteScale == Vec2(ItemScale, ItemScale)
    ensures e.textureSize == if image in disk then disk[image] else SpriteSheets.IntVec(0, 0)
  {
    if kind == LOG {
      e := new Entity.Log();
    } else {
      e := new Entity.Potion();
    }
    assert e.observer == null;
    var at := ItemPlacement(col, row);
    e.SetPosition(at.x, at.y);
    e.Init(image, ItemScale, disk);
  }

  /** `buildEntityAt` followed by `addEntity`. */
  method BuildItem(g: Game, kind: EntityType, image: string, col: nat, row: nat, disk: map<string, SpriteSheets.IntVec>)
    returns (e: Entity)
    requires g.Valid() && (kind == LOG || kind == POTION)
    modifies g`entityCounter, g`entities, g`archetypes, g`world, g.packedEntities
    ensures g.Valid() && fresh(e) && e.kind == kind
    ensures e.positionComp.position == ItemPlacement(col, row)
    ensures g.entities == old(g.entities) + [e] && g.world == old(g.world) + {e}
  {
    e := MakeItem(kind, image, col, row, disk);
    assert g.player != null ==> g.player.Shape();
    g.AddEntity(e);
  }

  /**
   * A new Player with its sprite sheet loaded (`initSpriteSheet` throws when
   * the file does not open or its lines do not load) and, when it loads,
   * placed in its cell by `positionSprite`.
   */
  method MakePlayer(col: nat, row: nat, disk: map<string, SpriteSheets.IntVec>, sheets: map<string, seq<string>>)
    returns (status: Status, p: Entity)
    ensures fresh(p) && fresh(p.Slots()) && p.Valid() && p.Shape() && p.kind == PLAYER && p.variant == PlayerClass
    ensures p.observer == null
    ensures status.Success? <==> SheetLoads(disk, sheets)
  {
    p := new Entity.Player();
    var file := if PlayerSheetFile in sheets then Some(sheets[PlayerSheetFile]) else None;
    assert SpriteSheets.Released(SpriteSheets.Blank) == SpriteSheets.Blank;
    status := p.InitSpriteSheet(file, disk.Keys);
    if status.Success? {
      p.PositionSprite(row, col, SpriteWH, TileScale);
    }
  }

  /**
   * The Player arm of `init` up to `addEntity`: the new Player becomes the
   * game's player whether or not its sheet loads, and is added only when
   * it does. (`init` assigns `player` before loading the sheet; the two
   * touch disjoint objects, so the order here leaves the same state.)
   */
  method BuildPlayer(g: Game, col: nat, row: nat, disk: map<string, SpriteSheets.IntVec>, sheets: map<string, seq<string>>)
    returns (status: Status, p: Entity)
    requires g.Valid()
    modifies g`player, g`world, g`entityCounter, g`entities, g`archetypes, g.packedEntities
    ensures g.Valid() && fresh(p) && p.kind == PLAYER && g.player == p && p.observer == null
    ensures status.Success? <==> SheetLoads(disk, sheets)
    ensures status.Success? ==> g.entities == old(g.entities) + [p]
    ensures status.Failure? ==> g.entities == old(g.entities)
  {
    status, p := MakePlayer(col, row, disk, sheets);
    g.SetPlayer(p);
    if status.Success? {
      g.AddEntity(p);
    }
  }

  /** How `init` binds a new Player: its potion and log handlers become the POTION and LOG callbacks. */
  function Bound(cbs: map<EntityType, Callback>, p: Entity): (r: map<EntityType, Callback>)
    ensures r.Keys == cbs.Keys + {POTION, LOG}
    ensures r[POTION] == PotionCallback(p) && r[LOG] == LogCallback(p)
    ensures forall k | k in cbs && k != POTION && k != LOG :: r[k] == cbs[k]
  {
    cbs[POTION := PotionCallback(p)][LOG := LogCallback(p)]
  }

  /** The end of the Player arm: a new observer for the player, then its two collision callbacks. */
  method AttachPlayer(g: Game, p: Entity)
    requires g.Valid() && g.player == p
    modifies g`achievementObserver, g`collisionCallbacks, p`observer
    ensures g.Valid() && Attached(g, p, old(g.collisionCallbacks)) && fresh(g.achievementObserver)
  {
    var obs := new AchievementObserver();
    g.achievementObserver := obs;
    p.SetObserver(obs);
    assert g.Valid();
    g.RegisterCollisionCallback(POTION, PotionCallback(p));
    g.RegisterCollisionCallback(LOG, LogCallback(p));
  }


  /** The Player arm's last step, which runs only when the earlier ones did not throw. */
  method FinishPlayer(g: Game, p: Entity, ok: bool, board: Board)
    requires g.Valid() && g.player == p
    modifies g`achievementObserver, g`collisionCallbacks, p`observer
    requires board.Valid()
    ensures g.Valid() && g.entities == old(g.entities)
    ensures board.Valid() && board.textureMap == old(board.textureMap) && board.grid[..] == old(board.grid[..])
    ensures ok ==> Attached(g, p, old(g.collisionCallbacks)) && fresh(g.achievementObserver)
  {
    if ok {
      AttachPlayer(g, p);
    }
  }

  // ---------------------------------------------------------------------
  // One character

  /** What decides whether a step throws, for this board. */
  function EnvOf(board: Board, disk: map<string, SpriteSheets.IntVec>, sheets: map<string, seq<string>>): Env
  {
    Env(board.width, board.height, disk, SheetLoads(disk, sheets))
  }

  /** `env` has the board's size and the image files of `disk`. */
  predicate Fits(env: Env, board: Board, disk: map<string, SpriteSheets.IntVec>)
  {
    env.width == board.width && env.height == board.height && env.disk == disk
  }

  /**
   * `p` is the game's player and carries the game's observer, whose counts
   * are new, and the POTION and LOG callbacks are bound to `p` over `cbs`.
   */
  ghost predicate Attached(g: Game, p: Entity, cbs: map<EntityType, Callback>)
    reads g`player, g`achievementObserver, g`collisionCallbacks, p`observer, p.observer
  {
    g.player == p && g.achievementObserver != null && p.observer == g.achievementObserver &&
    g.achievementObserver.potionsCollected == 0 && g.achievementObserver.shoutsPerformed == 0 &&
    g.collisionCallbacks == Bound(cbs, p)
  }

  /** `done` is what ran of character `ch`'s steps, all of them exactly when `ok`. */
  ghost predicate CellRan(done: seq<Action>, ch: char, col: nat, row: nat, env: Env, ok: bool)
  {
    done == Performed(CellPlan(ch, col, row), env) && (ok <==> done == CellPlan(ch, col, row))
  }

  /**
   * Character `ch` at (col, row) of a w by h board changed at most its own
   * cell, nothing when it has no tile or is out of bounds, and, when `ok`,
   * its cell holds the character's tile.
   */
  ghost predicate CellShown(after: seq<Tile?>, before: seq<Tile?>, ch: char, col: nat, row: nat, w: nat, h: nat, ok: bool)
  {
    Kept(after, before, CellIndex(col, row, w)) &&
    (TileOf(ch).None? || !(col < w && row < h) ==> after == before) &&
    (ok && TileOf(ch).Some? ==> col < w && Holds(after, CellIndex(col, row, w), TileOf(ch).value))
  }

  /** A cell whose tile step changed at most its own cell, and holds the tile when it ran. */
  lemma TileShown(after: seq<Tile?>, before: seq<Tile?>, ch: char, t: TileType, col: nat, row: nat, w: nat, h: nat, ok: bool)
    requires TileOf(ch) == Some(t) && Kept(after, before, CellIndex(col, row, w))
    requires !(col < w && row < h) ==> after == before
    requires ok ==> col < w && row < h && Holds(after, CellIndex(col, row, w), t)
    ensures CellShown(after, before, ch, col, row, w, h, ok)
  {
  }

  /** The steps of `'x'` and `'p'`: the item is built, then its floor tile runs or throws. */
  lemma ItemRan(ch: char, kind: EntityType, col: nat, row: nat, env: Env, ok: bool, done: seq<Action>)
    requires (ch == 'x' && kind == LOG) || (ch == 'p' && kind == POTION)
    requires ok <==> !Fails(Place(col, row, CORRIDOR), env)
    requires done == if ok then [Build(kind, col, row), Place(col, row, CORRIDOR)] else [Build(kind, col, row)]
    ensures CellRan(done, ch, col, row, env, ok) && BuiltKinds(done) == [kind]
  {
    var b := Build(kind, col, row);
    PerformedTwo(b, Place(col, row, CORRIDOR), env);
    assert BuiltKinds([Place(col, row, CORRIDOR)]) == [] + BuiltKinds([]);
    assert BuiltKinds([b]) == [kind] + BuiltKinds([]);
    assert [b, Place(col, row, CORRIDOR)][1..] == [Place(col, row, CORRIDOR)];
  }

  /**
   * `board->addTile(col, row, tileScale, t, image)`. The board's cache
   * only holds images from `disk`, so the tile throws exactly when it is
   * out of bounds or its image is not on disk.
   */
  method PlaceTile(ghost g: Game, board: Board, col: nat, row: nat, t: TileType, disk: map<string, SpriteSheets.IntVec>)
    returns (status: Status)
    requires g.Valid() && board.Valid() && board.textureMap.Keys <= disk.Keys
    modifies board.grid, board`textureMap
    ensures g.Valid() && g.entities == old(g.entities) && board.Valid() && board.textureMap.Keys <= disk.Keys
    ensures status.Success? <==> board.InBounds(col, row) && TileImage(t) in disk
    ensures Kept(board.grid[..], old(board.grid[..]), CellIndex(col, row, board.width))
    ensures !board.InBounds(col, row) ==> board.grid[..] == old(board.grid[..])
    ensures status.Success? ==> Holds(board.grid[..], CellIndex(col, row, board.width), t)
  {
    status := board.AddTile(col, row, TileScale, t, TileImage(t), disk);
  }

  /** `PlaceTile` run only after an earlier step that did not throw; a throw of that step passes through. */
  method PlaceAfter(ghost g: Game, prior: Status, board: Board, col: nat, row: nat, t: TileType, disk: map<string, SpriteSheets.IntVec>)
    returns (status: Status)
    requires g.Valid() && board.Valid() && board.textureMap.Keys <= disk.Keys
    modifies board.grid, board`textureMap
    ensures g.Valid() && g.entities == old(g.entities) && board.Valid() && board.textureMap.Keys <= disk.Keys
    ensures status.Success? <==> prior.Success? && board.InBounds(col, row) && TileImage(t) in disk
    ensures Kept(board.grid[..], old(board.grid[..]), CellIndex(col, row, board.width))
    ensures prior.Failure? || !board.InBounds(col, row) ==> board.grid[..] == old(board.grid[..])
    ensures status.Success? ==> Holds(board.grid[..], CellIndex(col, row, board.width), t)
  {
    if prior.Failure? {
      status := prior;
    } else {
      status := PlaceTile(g, board, col, row, t, disk);
    }
  }

  /** A plain tile, `'.'` or `'w'`. */
  method CellTile(g: Game, board: Board, ch: char, col: nat, row: nat, disk: map<string, SpriteSheets.IntVec>, ghost env: Env)
    returns (status: Status, ghost done: seq<Action>)
    requires g.Valid() && board.Valid() && board.textureMap.Keys <= disk.Keys && (ch == '.' || ch == 'w')
    requires Fits(env, board, disk)
    modifies board.grid, board`textureMap
    ensures g.Valid() && board.Valid() && board.textureMap.Keys <= disk.Keys
    ensures CellRan(done, ch, col, row, env, status.Success?) && BuiltKinds(done) == []
    ensures CellShown(board.grid[..], old(board.grid[..]), ch, col, row, board.width, board.height, status.Success?)
  {
    var t := if ch == 'w' then WALL else CORRIDOR;
    status := PlaceTile(g, board, col, row, t, disk);
    PerformedOne(Place(col, row, t), env);
    done := if status.Success? then [Place(col, row, t)] else [];
    assert BuiltKinds([Place(col, row, t)]) == [] + BuiltKinds([]);
    TileShown(board.grid[..], old(board.grid[..]), ch, t, col, row, board.width, board.height, status.Success?);
  }

  /** A Log or Potion on a floor tile, `'x'` or `'p'`. */
  method CellItem(g: Game, board: Board, ch: char, col: nat, row: nat,
                  disk: map<string, SpriteSheets.IntVec>, ghost env: Env)
    returns (status: Status, ghost done: seq<Action>, ghost made: seq<Entity>)
    requires g.Valid() && board.Valid() && board.textureMap.Keys <= disk.Keys && (ch == 'x' || ch == 'p')
    requires Fits(env, board, disk)
    modifies g`entityCounter, g`entities, g`archetypes, g`world, g.packedEntities, board.grid, board`textureMap
    ensures g.Valid() && board.Valid() && board.textureMap.Keys <= disk.Keys
    ensures CellRan(done, ch, col, row, env, status.Success?)
    ensures g.entities == old(g.entities) + made && KindsOf(made) == BuiltKinds(done) && LastPlayer(made).None?
    ensures CellShown(board.grid[..], old(board.grid[..]), ch, col, row, board.width, board.height, status.Success?)
  {
    var kind := if ch == 'x' then LOG else POTION;
    var image := if ch == 'x' then LogImage else PotionImage;
    var e := BuildItem(g, kind, image, col, row, disk);
    status := PlaceTile(g, board, col, row, CORRIDOR, disk);
    done := if status.Success? then [Build(kind, col, row), Place(col, row, CORRIDOR)] else [Build(kind, col, row)];
    made := [e];
    ItemRan(ch, kind, col, row, env, status.Success?, done);
    TileShown(board.grid[..], old(board.grid[..]), ch, CORRIDOR, col, row, board.width, board.height, status.Success?);
    assert KindsOf(made) == [kind] + KindsOf([]);
    assert made[1..] == [];
  }

  /** The Player on a floor tile: the first two steps of `'*'`. */
  method PlayerTile(g: Game, board: Board, col: nat, row: nat,
                    disk: map<string, SpriteSheets.IntVec>, sheets: map<string, seq<string>>, ghost env: Env)
    returns (status: Status, ghost done: seq<Action>, p: Entity)
    requires g.Valid() && board.Valid() && board.textureMap.Keys <= disk.Keys
    requires Fits(env, board, disk) && env.sheetLoads == SheetLoads(disk, sheets)
    modifies g`player, g`world, g`entityCounter, g`entities, g`archetypes, g.packedEntities, board.grid, board`textureMap
    ensures g.Valid() && board.Valid() && board.textureMap.Keys <= disk.Keys
    ensures var plan := [Build(PLAYER, col, row), Place(col, row, CORRIDOR)];
      done == Performed(plan, env) && (status.Success? <==> done == plan)
    ensures g.player == p && p.kind == PLAYER && p.observer == null && fresh(p)
    ensures g.entities == old(g.entities) + (if done == [] then [] else [p])
    ensures CellShown(board.grid[..], old(board.grid[..]), '*', col, row, board.width, board.height, status.Success?)
  {
    var b := Build(PLAYER, col, row);
    PerformedTwo(b, Place(col, row, CORRIDOR), env);
    var built;
    built, p := BuildPlayer(g, col, row, disk, sheets);
    status := PlaceAfter(g, built, board, col, row, CORRIDOR, disk);
    done := if built.Failure? then [] else if status.Success? then [b, Place(col, row, CORRIDOR)] else [b];
    TileShown(board.grid[..], old(board.grid[..]), '*', CORRIDOR, col, row, board.width, board.height, status.Success?);
  }

  /** The steps of `'*'`: the two of `PlayerTile`, then `Attach` when both ran. */
  lemma PlayerPlan(first: seq<Action>, ok: bool, col: nat, row: nat, env: Env)
    requires first == Performed([Build(PLAYER, col, row), Place(col, row, CORRIDOR)], env)
    requires ok <==> first == [Build(PLAYER, col, row), Place(col, row, CORRIDOR)]
    ensures CellRan(if ok then first + [Attach] else first, '*', col, row, env, ok)
  {
    PerformedTwo(Build(PLAYER, col, row), Place(col, row, CORRIDOR), env);
    PerformedThree(Build(PLAYER, col, row), Place(col, row, CORRIDOR), Attach, env);
  }

  /** What `'*'` adds: the Player, once its Build step ran. */
  lemma PlayerKinds(first: seq<Action>, ok: bool, p: Entity, col: nat, row: nat, env: Env)
    requires p.kind == PLAYER
    requires first == Performed([Build(PLAYER, col, row), Place(col, row, CORRIDOR)], env)
    ensures var done := if ok then first + [Attach] else first;
      var made := if first == [] then [] else [p];
      KindsOf(made) == BuiltKinds(done) && (made != [] ==> LastPlayer(made) == Some(p))
  {
    var b := Build(PLAYER, col, row);
    PerformedTwo(b, Place(col, row, CORRIDOR), env);
    assert KindsOf([p]) == [PLAYER] + KindsOf([]);
    assert BuiltKinds([b]) == [PLAYER] + BuiltKinds([]);
    assert BuiltKinds([Place(col, row, CORRIDOR)]) == [] + BuiltKinds([]);
    assert BuiltKinds([Attach]) == [] + BuiltKinds([]);
    assert [b, Place(col, row, CORRIDOR)][1..] == [Place(col, row, CORRIDOR)];
    BuiltKindsConcat(first, [Attach]);
    assert [p][1..] == [];
  }

  /** The Player on a floor tile, `'*'`, then its observer and callbacks. */
  method CellPlayer(g: Game, board: Board, col: nat, row: nat,
                    disk: map<string, SpriteSheets.IntVec>, sheets: map<string, seq<string>>, ghost env: Env)
    returns (status: Status, ghost done: seq<Action>, ghost made: seq<Entity>)
    requires g.Valid() && board.Valid() && board.textureMap.Keys <= disk.Keys
    requires Fits(env, board, disk) && env.sheetLoads == SheetLoads(disk, sheets)
    modifies g`player, g`world, g`entityCounter, g`entities, g`archetypes, g.packedEntities
    modifies g`achievementObserver, g`collisionCallbacks, board.grid, board`textureMap
    ensures g.Valid() && board.Valid() && board.textureMap.Keys <= disk.Keys
    ensures CellRan(done, '*', col, row, env, status.Success?)
    ensures g.entities == old(g.entities) + made && KindsOf(made) == BuiltKinds(done)
    ensures CellShown(board.grid[..], old(board.grid[..]), '*', col, row, board.width, board.height, status.Success?)
    ensures status.Success? ==>
      LastPlayer(made).Some? && Attached(g, LastPlayer(made).value, old(g.collisionCallbacks)) && fresh(g.achievementObserver)
  {
    ghost var first;
    var p;
    status, first, p := PlayerTile(g, board, col, row, disk, sheets, env);
    PlayerPlan(first, status.Success?, col, row, env);
    PlayerKinds(first, status.Success?, p, col, row, env);
    made := if first == [] then [] else [p];
    done := if status.Success? then first + [Attach] else first;
    FinishPlayer(g, p, status.Success?, board);
  }

  /**
   * Every other arm of the `switch` in `init`: a tile, an item on a floor
   * tile, or, for any other character, nothing. None of them touches the
   * game's player, observer or callbacks.
   */
  method OtherCell(g: Game, board: Board, ch: char, col: nat, row: nat,
                   disk: map<string, SpriteSheets.IntVec>, ghost env: Env)
    returns (status: Status, ghost done: seq<Action>, ghost made: seq<Entity>)
    requires g.Valid() && board.Valid() && board.textureMap.Keys <= disk.Keys && ch != '*'
    requires Fits(env, board, disk)
    modifies g`entityCounter, g`entities, g`archetypes, g`world, g.packedEntities, board.grid, board`textureMap
    ensures g.Valid() && board.Valid() && board.textureMap.Keys <= disk.Keys
    ensures CellRan(done, ch, col, row, env, status.Success?)
    ensures g.entities == old(g.entities) + made && KindsOf(made) == BuiltKinds(done) && LastPlayer(made).None?
    ensures CellShown(board.grid[..], old(board.grid[..]), ch, col, row, board.width, board.height, status.Success?)
  {
    if ch == '.' || ch == 'w' {
      status, done := CellTile(g, board, ch, col, row, disk, env);
      made := [];
    } else if ch == 'x' || ch == 'p' {
      status, done, made := CellItem(g, board, ch, col, row, disk, env);
    } else {
      status, done, made := Success, [], [];
      assert CellPlan(ch, col, row) == [];
    }
  }

  /** One character of a line: the arm of the `switch` in `init` that it selects. */
  method InitCell(g: Game, board: Board, ch: char, col: nat, row: nat,
                  disk: map<string, SpriteSheets.IntVec>, sheets: map<string, seq<string>>, ghost env: Env)
    returns (status: Status, ghost done: seq<Action>, ghost made: seq<Entity>)
    requires g.Valid() && board.Valid() && board.textureMap.Keys <= disk.Keys
    requires Fits(env, board, disk) && env.sheetLoads == SheetLoads(disk, sheets)
    modifies g`player, g`world, g`entityCounter, g`entities, g`archetypes, g.packedEntities
    modifies g`achievementObserver, g`collisionCallbacks, board.grid, board`textureMap
    ensures g.Valid() && board.Valid() && board.textureMap.Keys <= disk.Keys
    ensures CellRan(done, ch, col, row, env, status.Success?)
    ensures g.entities == old(g.entities) + made && KindsOf(made) == BuiltKinds(done)
    ensures CellShown(board.grid[..], old(board.grid[..]), ch, col, row, board.width, board.height, status.Success?)
    ensures status.Success? && LastPlayer(made).Some? ==>
      g.player == LastPlayer(made).value && g.collisionCallbacks == Bound(old(g.collisionCallbacks), g.player)
    ensures status.Success? && LastPlayer(made).None? ==>
      g.player == old(g.player) && g.collisionCallbacks == old(g.collisionCallbacks)
  {
    if ch == '*' {
      status, done, made := CellPlayer(g, board, col, row, disk, sheets, env);
    } else {
      status, done, made := OtherCell(g, board, ch, col, row, disk, env);
    }
  }

  // ---------------------------------------------------------------------
  // One line

  /**
   * A plan run piece by piece: once `part` ran to its end, running `next`
   * extends it, and when `next` stops early the whole plan stops there.
   */
  lemma Advance(part: seq<Action>, next: seq<Action>, whole: seq<Action>, env: Env, d: seq<Action>)
    requires part + next <= whole && Performed(part, env) == part && d == Performed(next, env)
    ensures Performed(part + next, env) == part + d
    ensures d != next ==> Performed(whole, env) == part + d && part + d != whole
  {
    PerformedConcat(part, next, env);
    if d != next {
      PerformedPrefix(part + next, whole, env);
      assert |d| < |next|;
    }
  }

  /** Character `col` of a line is read after the ones before it. */
  lemma LineAdvance(line: string, col: nat, row: nat, env: Env, done: seq<Action>, cell: seq<Action>, ok: bool)
    requires col < |line| && done == LinePlan(line[..col], row) && Performed(done, env) == done
    requires CellRan(cell, line[col], col, row, env, ok)
    ensures BuiltKinds(done + cell) == BuiltKinds(done) + BuiltKinds(cell)
    ensures ok ==> done + cell == LinePlan(line[..col + 1], row) && Performed(done + cell, env) == done + cell
    ensures !ok ==> Performed(LinePlan(line, row), env) == done + cell && done + cell != LinePlan(line, row)
  {
    BuiltKindsConcat(done, cell);
    LineStep(line, col, row);
    LinePrefix(line, col + 1, row);
    Advance(done, CellPlan(line[col], col, row), LinePlan(line, row), env, cell);
  }

  /** Reading character `col` keeps the cells outside the row and, when it ran, shows one more character. */
  lemma CellStep(before: seq<Tile?>, after: seq<Tile?>, pre: seq<Tile?>, line: string, col: nat, row: nat, w: nat, h: nat, ok: bool)
    requires col < |line| && CellShown(after, before, line[col], col, row, w, h, ok)
    requires OutsideBand(before, pre, row, w) && RowUpTo(before, line, row, w, col)
    ensures OutsideBand(after, pre, row, w)
    ensures ok ==> RowUpTo(after, line, row, w, col + 1)
  {
    BandStep(before, after, pre, row, w, col);
    if ok {
      RowStep(before, after, line, row, w, col);
    }
  }

  /** Binding a second Player replaces the first's callbacks. */
  lemma BoundAgain(cbs: map<EntityType, Callback>, p1: Entity, p2: Entity)
    ensures Bound(Bound(cbs, p1), p2) == Bound(cbs, p2)
  {
  }

  /**
   * Character `col` of a line, read after the ones before it: the steps
   * and entities so far grow by the character's, the cells outside the
   * row stay as they were, and when nothing threw the row shows one more
   * character and the last Player so far is attached over `cbs0`.
   */
  method ReadCell(g: Game, board: Board, line: string, col: nat, row: nat,
                  disk: map<string, SpriteSheets.IntVec>, sheets: map<string, seq<string>>, ghost env: Env,
                  ghost done: seq<Action>, ghost made: seq<Entity>, ghost pre: seq<Tile?>, ghost cbs0: map<EntityType, Callback>)
    returns (status: Status, ghost done': seq<Action>, ghost made': seq<Entity>, ghost cm: seq<Entity>)
    requires g.Valid() && board.Valid() && board.textureMap.Keys <= disk.Keys && col < |line|
    requires Fits(env, board, disk) && env.sheetLoads == SheetLoads(disk, sheets)
    requires done == LinePlan(line[..col], row) && Performed(done, env) == done
    requires KindsOf(made) == BuiltKinds(done)
    requires OutsideBand(board.grid[..], pre, row, board.width) && RowUpTo(board.grid[..], line, row, board.width, col)
    requires LastPlayer(made).Some? ==> g.player == LastPlayer(made).value && g.collisionCallbacks == Bound(cbs0, g.player)
    requires LastPlayer(made).None? ==> g.collisionCallbacks == cbs0
    modifies g`player, g`world, g`entityCounter, g`entities, g`archetypes, g.packedEntities
    modifies g`achievementObserver, g`collisionCallbacks, board.grid, board`textureMap
    ensures g.Valid() && board.Valid() && board.textureMap.Keys <= disk.Keys
    ensures made' == made + cm && g.entities == old(g.entities) + cm && KindsOf(made') == BuiltKinds(done')
    ensures OutsideBand(board.grid[..], pre, row, board.width)
    ensures status.Success? ==>
      done' == LinePlan(line[..col + 1], row) && Performed(done', env) == done' &&
      RowUpTo(board.grid[..], line, row, board.width, col + 1)
    ensures status.Failure? ==>
      done' == Performed(LinePlan(line, row), env) && done' != LinePlan(line, row)
    ensures status.Success? && LastPlayer(made').Some? ==>
      g.player == LastPlayer(made').value && g.collisionCallbacks == Bound(cbs0, g.player)
    ensures status.Success? && LastPlayer(made').None? ==> g.player == old(g.player) && g.collisionCallbacks == cbs0
  {
    ghost var before := board.grid[..];
    ghost var cd;
    status, cd, cm := InitCell(g, board, line[col], col, row, disk, sheets, env);
    LineAdvance(line, col, row, env, done, cd, status.Success?);
    CellStep(before, board.grid[..], pre, line, col, row, board.width, board.height, status.Success?);
    KindsConcat(made, cm);
    LastPlayerConcat(made, cm);
    if status.Success? && LastPlayer(cm).Some? && LastPlayer(made).Some? {
      BoundAgain(cbs0, LastPlayer(made).value, LastPlayer(cm).value);
    }
    done', made' := done + cd, made + cm;
  }

  /**
   * One line of the level, character by character, until a step throws:
   * only the cells of its row change, and when nothing threw the row shows
   * the line and the line's last Player is the game's player and holds the
   * POTION and LOG callbacks.
   */
  method InitLine(g: Game, board: Board, line: string, row: nat,
                  disk: map<string, SpriteSheets.IntVec>, sheets: map<string, seq<string>>, ghost env: Env)
    returns (status: Status, ghost done: seq<Action>, ghost made: seq<Entity>)
    requires g.Valid() && board.Valid() && board.textureMap.Keys <= disk.Keys
    requires Fits(env, board, disk) && env.sheetLoads == SheetLoads(disk, sheets)
    requires RowUpTo(board.grid[..], line, row, board.width, 0)
    modifies g`player, g`world, g`entityCounter, g`entities, g`archetypes, g.packedEntities
    modifies g`achievementObserver, g`collisionCallbacks, board.grid, board`textureMap
    ensures g.Valid() && board.Valid() && board.textureMap.Keys <= disk.Keys
    ensures done == Performed(LinePlan(line, row), env)
    ensures status.Success? <==> done == LinePlan(line, row)
    ensures g.entities == old(g.entities) + made && KindsOf(made) == BuiltKinds(done)
    ensures OutsideBand(board.grid[..], old(board.grid[..]), row, board.width)
    ensures status.Success? ==> RowUpTo(board.grid[..], line, row, board.width, |line|)
    ensures status.Success? && LastPlayer(made).Some? ==>
      g.player == LastPlayer(made).value && g.collisionCallbacks == Bound(old(g.collisionCallbacks), g.player)
    ensures status.Success? && LastPlayer(made).None? ==>
      g.player == old(g.player) && g.collisionCallbacks == old(g.collisionCallbacks)
  {
    ghost var pre := board.grid[..];
    status, done, made := Success, [], [];
    var col := 0;
    assert line[..0] == [];
    while col < |line|
      invariant col <= |line| && status.Success?
      invariant g.Valid() && board.Valid() && board.textureMap.Keys <= disk.Keys
      invariant done == LinePlan(line[..col], row) && Performed(done, env) == done
      invariant g.entities == old(g.entities) + made && KindsOf(made) == BuiltKinds(done)
      invariant OutsideBand(board.grid[..], pre, row, board.width) && RowUpTo(board.grid[..], line, row, board.width, col)
      invariant LastPlayer(made).Some? ==>
        g.player == LastPlayer(made).value && g.collisionCallbacks == Bound(old(g.collisionCallbacks), g.player)
      invariant LastPlayer(made).None? ==> g.player == old(g.player) && g.collisionCallbacks == old(g.collisionCallbacks)
    {
      ghost var m0, cm := made, [];
      var st;
      st, done, made, cm := ReadCell(g, board, line, col, row, disk, sheets, env, done, made, pre, old(g.collisionCallbacks));
      Associative(old(g.entities), m0, cm);
      LastPlayerConcat(m0, cm);
      if st.Failure? {
        status := st;
        return;
      }
      col := col + 1;
    }
    assert line[..col] == line;
  }

  // ---------------------------------------------------------------------
  // One level

  /** Rows before `upTo` show their lines; the later rows are still empty. */
  ghost predicate ShownUpTo(cells: seq<Tile?>, lines: seq<string>, w: nat, upTo: nat)
  {
    forall r | 0 <= r < |lines| :: RowUpTo(cells, lines[r], r, w, if r < upTo then |lines[r]| else 0)
  }

  /** A new board shows no line yet. */
  lemma EmptyShown(cells: seq<Tile?>, lines: seq<string>, w: nat)
    requires forall i | 0 <= i < |cells| :: cells[i] == null
    ensures ShownUpTo(cells, lines, w, 0)
  {
  }

  /** Reading line `row` leaves the earlier rows as they were and adds its own. */
  lemma RowsStep(before: seq<Tile?>, after: seq<Tile?>, lines: seq<string>, row: nat, w: nat)
    requires row < |lines| && ShownUpTo(before, lines, w, row)
    requires OutsideBand(after, before, row, w) && RowUpTo(after, lines[row], row, w, |lines[row]|)
    ensures ShownUpTo(after, lines, w, row + 1)
  {
    forall r | 0 <= r < |lines| && r != row
      ensures RowUpTo(after, lines[r], r, w, if r < row + 1 then |lines[r]| else 0)
    {
      OtherRow(before, after, lines[r], r, row, w, if r < row then |lines[r]| else 0);
    }
  }

  /** Line `row` is read after the lines before it. */
  lemma PlanAdvance(lines: seq<string>, row: nat, env: Env, done: seq<Action>, line: seq<Action>, ok: bool)
    requires row < |lines| && done == Plan(lines[..row]) && Performed(done, env) == done
    requires line == Performed(LinePlan(lines[row], row), env) && (ok <==> line == LinePlan(lines[row], row))
    ensures BuiltKinds(done + line) == BuiltKinds(done) + BuiltKinds(line)
    ensures ok ==> done + line == Plan(lines[..row + 1]) && Performed(done + line, env) == done + line
    ensures !ok ==> Performed(Plan(lines), env) == done + line && done + line != Plan(lines)
  {
    BuiltKindsConcat(done, line);
    PlanStep(lines, row);
    PlanPrefix(lines, row + 1);
    Advance(done, LinePlan(lines[row], row), Plan(lines), env, line);
  }

  /**
   * Line `row` of the level, read after the ones before it: the steps and
   * entities so far grow by the line's, and when nothing threw one more row
   * shows its line and the last Player so far holds the callbacks over `cbs0`.
   */
  method ReadLine(g: Game, board: Board, lines: seq<string>, row: nat,
                  disk: map<string, SpriteSheets.IntVec>, sheets: map<string, seq<string>>, ghost env: Env,
                  ghost done: seq<Action>, ghost made: seq<Entity>, ghost p0: Entity?, ghost cbs0: map<EntityType, Callback>)
    returns (status: Status, ghost done': seq<Action>, ghost made': seq<Entity>, ghost lm: seq<Entity>)
    requires g.Valid() && board.Valid() && board.textureMap.Keys <= disk.Keys && row < |lines|
    requires Fits(env, board, disk) && env.sheetLoads == SheetLoads(disk, sheets)
    requires done == Plan(lines[..row]) && Performed(done, env) == done
    requires KindsOf(made) == BuiltKinds(done)
    requires ShownUpTo(board.grid[..], lines, board.width, row)
    requires LastPlayer(made).Some? ==> g.player == LastPlayer(made).value && g.collisionCallbacks == Bound(cbs0, g.player)
    requires LastPlayer(made).None? ==> g.player == p0 && g.collisionCallbacks == cbs0
    modifies g`player, g`world, g`entityCounter, g`entities, g`archetypes, g.packedEntities
    modifies g`achievementObserver, g`collisionCallbacks, board.grid, board`textureMap
    ensures g.Valid() && board.Valid() && board.textureMap.Keys <= disk.Keys
    ensures made' == made + lm && g.entities == old(g.entities) + lm && KindsOf(made') == BuiltKinds(done')
    ensures status.Success? ==>
      done' == Plan(lines[..row + 1]) && Performed(done', env) == done' &&
      ShownUpTo(board.grid[..], lines, board.width, row + 1)
    ensures status.Failure? ==> done' == Performed(Plan(lines), env) && done' != Plan(lines)
    ensures status.Success? && LastPlayer(made').Some? ==>
      g.player == LastPlayer(made').value && g.collisionCallbacks == Bound(cbs0, g.player)
    ensures status.Success? && LastPlayer(made').None? ==> g.player == p0 && g.collisionCallbacks == cbs0
  {
    ghost var before := board.grid[..];
    ghost var ld;
    status, ld, lm := InitLine(g, board, lines[row], row, disk, sheets, env);
    PlanAdvance(lines, row, env, done, ld, status.Success?);
    if status.Success? {
      RowsStep(before, board.grid[..], lines, row, board.width);
    }
    KindsConcat(made, lm);
    LastPlayerConcat(made, lm);
    if status.Success? && LastPlayer(lm).Some? && LastPlayer(made).Some? {
      BoundAgain(cbs0, LastPlayer(made).value, LastPlayer(lm).value);
    }
    done', made' := done + ld, made + lm;
  }

  /**
   * The lines of the level in order, on a board as high as the level,
   * until a step throws: the steps that ran are those of the level's plan
   * up to the first that throws, and when nothing threw the board shows the
   * level and the level's last Player is the game's player and holds the
   * POTION and LOG callbacks.
   */
  method ReadLines(g: Game, board: Board, lines: seq<string>,
                   disk: map<string, SpriteSheets.IntVec>, sheets: map<string, seq<string>>, ghost env: Env)
    returns (status: Status, ghost done: seq<Action>, ghost made: seq<Entity>)
    requires g.Valid() && board.Valid() && board.textureMap.Keys <= disk.Keys
    requires Fits(env, board, disk) && env.sheetLoads == SheetLoads(disk, sheets)
    requires ShownUpTo(board.grid[..], lines, board.width, 0)
    modifies g`player, g`world, g`entityCounter, g`entities, g`archetypes, g.packedEntities
    modifies g`achievementObserver, g`collisionCallbacks, board.grid, board`textureMap
    ensures g.Valid() && board.Valid() && board.textureMap.Keys <= disk.Keys
    ensures done == Performed(Plan(lines), env) && (status.Success? <==> done == Plan(lines))
    ensures g.entities == old(g.entities) + made && KindsOf(made) == BuiltKinds(done)
    ensures status.Success? ==> Shows(board.grid[..], lines, board.width)
    ensures status.Success? && LastPlayer(made).Some? ==>
      g.player == LastPlayer(made).value && g.collisionCallbacks == Bound(old(g.collisionCallbacks), g.player)
    ensures status.Success? && LastPlayer(made).None? ==>
      g.player == old(g.player) && g.collisionCallbacks == old(g.collisionCallbacks)
  {
    status, done, made := Success, [], [];
    var row := 0;
    assert lines[..0] == [];
    while row < |lines|
      invariant row <= |lines| && status.Success?
      invariant g.Valid() && board.Valid() && board.textureMap.Keys <= disk.Keys
      invariant done == Plan(lines[..row]) && Performed(done, env) == done
      invariant g.entities == old(g.entities) + made && KindsOf(made) == BuiltKinds(done)
      invariant ShownUpTo(board.grid[..], lines, board.width, row)
      invariant LastPlayer(made).Some? ==>
        g.player == LastPlayer(made).value && g.collisionCallbacks == Bound(old(g.collisionCallbacks), g.player)
      invariant LastPlayer(made).None? ==> g.player == old(g.player) && g.collisionCallbacks == old(g.collisionCallbacks)
    {
      ghost var m0, lm := made, [];
      var st;
      st, done, made, lm := ReadLine(g, board, lines, row, disk, sheets, env, done, made, old(g.player), old(g.collisionCallbacks));
      Associative(old(g.entities), m0, lm);
      if st.Failure? {
        status := st;
        return;
      }
      row := row + 1;
    }
    assert lines[..row] == lines;
  }

  /**
   * `init(lines)`: no lines throw "No data in level file" before anything
   * happens; otherwise a board as wide as the first line and as high as the
   * level, then the lines as `ReadLines` reads them, on the board's size,
   * the image files of `disk` and whether the Player's sprite sheet loads.
   */
  method Init(g: Game, lines: seq<string>, disk: map<string, SpriteSheets.IntVec>, sheets: map<string, seq<string>>)
    returns (status: Status, ghost done: seq<Action>, ghost made: seq<Entity>)
    requires g.Valid()
    modifies g`board, g`player, g`world, g`entityCounter, g`entities, g`archetypes, g.packedEntities
    modifies g`achievementObserver, g`collisionCallbacks
    ensures g.Valid() && g.entities == old(g.entities) + made && KindsOf(made) == BuiltKinds(done)
    ensures lines == [] ==>
      status == Failure(RuntimeError("No data in level file")) && done == [] && made == [] &&
      g.board == old(g.board) && g.player == old(g.player) && g.collisionCallbacks == old(g.collisionCallbacks)
    ensures lines != [] ==>
      g.board != null && fresh(g.board) && g.board.Valid() &&
      g.board.width == |lines[0]| && g.board.height == |lines| &&
      done == Performed(Plan(lines), Env(|lines[0]|, |lines|, disk, SheetLoads(disk, sheets))) &&
      (status.Success? <==> done == Plan(lines))
    ensures status.Success? ==> g.board != null && Shows(g.board.grid[..], lines, g.board.width)
    ensures status.Success? && LastPlayer(made).Some? ==>
      g.player == LastPlayer(made).value && g.collisionCallbacks == Bound(old(g.collisionCallbacks), g.player)
    ensures status.Success? && LastPlayer(made).None? ==>
      g.player == old(g.player) && g.collisionCallbacks == old(g.collisionCallbacks)
  {
    if |lines| == 0 {
      return Failure(RuntimeError("No data in level file")), [], [];
    }
    g.BuildBoard(|lines[0]|, |lines|);
    var board := g.board;
    EmptyShown(board.grid[..], lines, board.width);
    status, done, made := ReadLines(g, board, lines, disk, sheets, EnvOf(board, disk, sheets));
  }
}
