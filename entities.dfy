/** What a level holds: the entities of the map as values (the engine keeps
    them in vectors of copies), the board that groups them, and the entity
    behaviour whose code lives outside the level engine. */
module Entities {
  import opened Geometry
  import opened Collision

  /** One entity: its grid cell, its collision rectangle, and an opaque
      animation/motion state owned by the entity's own code. */
  datatype Entity = Entity(pos: Position, rect: Rect, phase: int)

  /** A patrolling monster: the columns of its patrol interval, its row, and
      the entity that walks it. */
  datatype Monster = Monster(x1: int, x2: int, row: int, body: Entity)

  /** The entity types that the map creates through their own constructors. */
  datatype Kind = PlayerKind | DoorKind | ArachneKind | SpikeKind | GhostKind | TimeBonusKind | PencilKind

  /** Entity behaviour implemented outside the level engine, taken as given
      total functions: the constructors (entity of a kind in a cell, monster
      for a patrol interval and row), the player's movement and gravity, and
      the per-type animation steps. */
  datatype Rules = Rules(
    spawn: (Kind, int, int) -> Entity,
    spawnMonster: (int, int, int) -> Entity,
    isJumping: Entity -> bool,
    walk: Entity -> Entity,
    fall: (Entity, seq<Rect>) -> Entity,
    jump: Entity -> Entity,
    moveX: (Entity, int) -> Entity,
    moveY: (Entity, int) -> Entity,
    reborn: Entity -> Entity,
    moveMonster: Monster -> Monster,
    switchSpikes: Entity -> Entity,
    switchPlant: Entity -> Entity,
    switchArachne: Entity -> Entity,
    switchGhost: Entity -> Entity)

  /** Everything placed on a level: the ground tiles, the single player and
      door, and one ordered collection per kind of hazard or collectible. */
  datatype Board = Board(
    ground: seq<Rect>,
    player: Entity,
    door: Entity,
    spikes: seq<Entity>,
    plants: seq<Entity>,
    arachnes: seq<Entity>,
    ghosts: seq<Entity>,
    timeBonuses: seq<Entity>,
    pencils: seq<Entity>,
    monsters: seq<Monster>)

  /** The collision rectangles of a collection, index for index. */
  function Rects(es: seq<Entity>): seq<Rect> {
    seq(|es|, i requires 0 <= i < |es| => es[i].rect)
  }

  function MonsterRects(ms: seq<Monster>): seq<Rect> {
    seq(|ms|, i requires 0 <= i < |ms| => ms[i].body.rect)
  }

  /** Every element of a collection after one application of its update. */
  function Mapped<T>(s: seq<T>, step: T -> T): seq<T> {
    seq(|s|, i requires 0 <= i < |s| => step(s[i]))
  }

  /** The in-place loop `for (auto &e : v) e.update();`. */
  method StepAll<T>(s: seq<T>, step: T -> T) returns (r: seq<T>)
    ensures r == Mapped(s, step)
  {
    r := s;
    var i := 0;
    while i < |r|
      invariant 0 <= i <= |r| == |s|
      invariant forall j :: 0 <= j < i ==> r[j] == step(s[j])
      invariant forall j :: i <= j < |r| ==> r[j] == s[j]
    {
      r := r[i := step(r[i])];
      i := i + 1;
    }
  }

  /** The board with the player standing on it touching something dangerous:
      a spike, a plant, a ghost, an arachne or a monster. */
  predicate Dangerous(b: Board) {
    var p := b.player.rect;
    || AnyHit(p, Rects(b.spikes))
    || AnyHit(p, Rects(b.plants))
    || AnyHit(p, Rects(b.ghosts))
    || AnyHit(p, Rects(b.arachnes))
    || AnyHit(p, MonsterRects(b.monsters))
  }

  /** The player overlaps the door. */
  predicate DoorReached(b: Board) {
    Intersects(b.player.rect, b.door.rect)
  }

  /** Time bonuses, pencils, the door and the ground never make a board
      dangerous: replacing all of them leaves the verdict as it was. */
  lemma DangerIgnoresHarmless(b: Board, ground: seq<Rect>, door: Entity, bonuses: seq<Entity>, pencils: seq<Entity>)
    ensures Dangerous(b.(ground := ground, door := door, timeBonuses := bonuses, pencils := pencils)) == Dangerous(b)
  {
  }
}
