/** The meaning of a level map: a single left-to-right, top-to-bottom pass
    over a character grid that fills the board (Level::load_map), stated as
    functions, and lemmas that relate the pass to an independent per-symbol
    description of the grid. */
module MapScan {
  import opened Geometry
  import opened Entities
  import Plantivorus

  /** Size of a ground tile's collision rectangle. */
  const GroundWidth: int := 64
  const GroundHeight: int := 16

  /** The ground rectangle of cell (c, r) (Level::add_rect). */
  function GroundRect(c: int, r: int): Rect {
    Rect(ToPixel(c), ToPixel(r), GroundWidth, GroundHeight)
  }

  /** The value stored for a plant built in cell (c, r): the cell, the
      collision rectangle and the sprite frame of a new Plantivorus. */
  function PlantAt(c: int, r: int): Entity {
    Entity(Position(c, r), Plantivorus.CollisionRect(c, r), Plantivorus.Pos0)
  }

  /** State of the pass: the board so far, whether a player and a door were
      seen, and the columns of the last '[' and ']' of the current row. */
  datatype Scan = Scan(board: Board, hasPlayer: bool, hasDoor: bool, x1: int, x2: int)

  /** The pass starts on a board with nothing seen and both markers at 0. */
  function Start(b: Board): Scan {
    Scan(b, false, false, 0, 0)
  }

  /** The effect of the character ch in column c of row r. */
  function ScanChar(rules: Rules, s: Scan, ch: char, c: int, r: int): Scan {
    var b := s.board;
    match ch
    case '*' => s.(board := b.(ground := b.ground + [GroundRect(c, r)]))
    case 'P' => s.(hasPlayer := true, board := b.(player := rules.spawn(PlayerKind, c, r)))
    case 'D' => s.(hasDoor := true, board := b.(door := rules.spawn(DoorKind, c, r)))
    case 'A' => s.(board := b.(arachnes := b.arachnes + [rules.spawn(ArachneKind, c, r)]))
    case '[' => s.(x1 := c)
    case ']' => s.(x2 := c)
    case 'S' => s.(board := b.(spikes := b.spikes + [rules.spawn(SpikeKind, c, r)]))
    case 'F' => s.(board := b.(plants := b.plants + [PlantAt(c, r)]))
    case 'G' => s.(board := b.(ghosts := b.ghosts + [rules.spawn(GhostKind, c, r)]))
    case 'T' => s.(board := b.(timeBonuses := b.timeBonuses + [rules.spawn(TimeBonusKind, c, r)]))
    case 'C' => s.(board := b.(pencils := b.pencils + [rules.spawn(PencilKind, c, r)]))
    case _ => s
  }

  /** The characters of one row, the column being the index in the line. */
  function ScanRow(rules: Rules, s: Scan, line: string, r: int): Scan
    decreases |line|
  {
    if |line| == 0 then s
    else
      var c := |line| - 1;
      ScanChar(rules, ScanRow(rules, s, line[..c], r), line[c], c, r)
  }

  /** End of a row: a monster when the two markers differ, then both reset. */
  function EndRow(rules: Rules, s: Scan, r: int): Scan {
    var b := s.board;
    var ms := if s.x1 != s.x2
      then b.monsters + [Monster(s.x1, s.x2, r, rules.spawnMonster(s.x1, s.x2, r))]
      else b.monsters;
    s.(board := b.(monsters := ms), x1 := 0, x2 := 0)
  }

  /** The whole grid, the row being the index of the line. */
  function ScanGrid(rules: Rules, s: Scan, lines: seq<string>): Scan
    decreases |lines|
  {
    if |lines| == 0 then s
    else
      var r := |lines| - 1;
      EndRow(rules, ScanRow(rules, ScanGrid(rules, s, lines[..r]), lines[r], r), r)
  }

  // ---------------------------------------------------------------------
  // An independent description of the grid: where each symbol stands.

  /** The cells of row r holding ch, left to right. */
  function RowCells(line: string, ch: char, r: int): seq<Position>
    decreases |line|
  {
    if |line| == 0 then []
    else
      var c := |line| - 1;
      RowCells(line[..c], ch, r) + (if line[c] == ch then [Position(c, r)] else [])
  }

  /** The cells of the grid holding ch, in reading order. */
  function GridCells(lines: seq<string>, ch: char): seq<Position>
    decreases |lines|
  {
    if |lines| == 0 then []
    else
      var r := |lines| - 1;
      GridCells(lines[..r], ch) + RowCells(lines[r], ch, r)
  }

  /** The grid holds ch in cell p. */
  predicate HoldsAt(lines: seq<string>, ch: char, p: Position) {
    0 <= p.y < |lines| && 0 <= p.x < |lines[p.y]| && lines[p.y][p.x] == ch
  }

  /** The grid holds ch somewhere. */
  ghost predicate HasSymbol(lines: seq<string>, ch: char) {
    exists p :: HoldsAt(lines, ch, p)
  }

  /** p comes strictly before q in reading order. */
  predicate Before(p: Position, q: Position) {
    p.y < q.y || (p.y == q.y && p.x < q.x)
  }

  /** Column of the last ch in the line, or d when there is none. */
  function LastColumn(line: string, ch: char, d: int): (k: int)
    ensures k == d ==> ch !in line || (0 <= d < |line| && line[d] == ch && forall j :: d < j < |line| ==> line[j] != ch)
    ensures k != d ==> 0 <= k < |line| && line[k] == ch && forall j :: k < j < |line| ==> line[j] != ch
    decreases |line|
  {
    if |line| == 0 then d
    else if line[|line| - 1] == ch then |line| - 1
    else LastColumn(line[..|line| - 1], ch, d)
  }

  /** The monsters of a grid, row by row: one per row whose last '[' and last
      ']' (each column 0 when absent) are in different columns. */
  function MonsterRows(rules: Rules, lines: seq<string>): seq<Monster>
    decreases |lines|
  {
    if |lines| == 0 then []
    else
      var r := |lines| - 1;
      var a, z := LastColumn(lines[r], '[', 0), LastColumn(lines[r], ']', 0);
      MonsterRows(rules, lines[..r]) + (if a != z then [Monster(a, z, r, rules.spawnMonster(a, z, r))] else [])
  }

  /** The collections filled one element per symbol. */
  datatype Group = Arachnes | Spikes | Plants | Ghosts | Bonuses | Pencils

  function Symbol(g: Group): char {
    match g
    case Arachnes => 'A'
    case Spikes => 'S'
    case Plants => 'F'
    case Ghosts => 'G'
    case Bonuses => 'T'
    case Pencils => 'C'
  }

  function Members(b: Board, g: Group): seq<Entity> {
    match g
    case Arachnes => b.arachnes
    case Spikes => b.spikes
    case Plants => b.plants
    case Ghosts => b.ghosts
    case Bonuses => b.timeBonuses
    case Pencils => b.pencils
  }

  /** The entity that a group's symbol creates in cell p. */
  function SpawnAt(rules: Rules, g: Group, p: Position): Entity {
    match g
    case Arachnes => rules.spawn(ArachneKind, p.x, p.y)
    case Spikes => rules.spawn(SpikeKind, p.x, p.y)
    case Plants => PlantAt(p.x, p.y)
    case Ghosts => rules.spawn(GhostKind, p.x, p.y)
    case Bonuses => rules.spawn(TimeBonusKind, p.x, p.y)
    case Pencils => rules.spawn(PencilKind, p.x, p.y)
  }

  function Spawned(rules: Rules, g: Group, cells: seq<Position>): seq<Entity>
    decreases |cells|
  {
    if |cells| == 0 then []
    else Spawned(rules, g, cells[..|cells| - 1]) + [SpawnAt(rules, g, cells[|cells| - 1])]
  }

  function GroundRects(cells: seq<Position>): seq<Rect>
    decreases |cells|
  {
    if |cells| == 0 then []
    else GroundRects(cells[..|cells| - 1]) + [GroundRect(cells[|cells| - 1].x, cells[|cells| - 1].y)]
  }

  /** The two entities of which a map holds exactly one slot each. */
  datatype Sole = ThePlayer | TheDoor

  function SoleSymbol(u: Sole): char {
    match u
    case ThePlayer => 'P'
    case TheDoor => 'D'
  }

  function SoleKind(u: Sole): Kind {
    match u
    case ThePlayer => PlayerKind
    case TheDoor => DoorKind
  }

  function Seen(s: Scan, u: Sole): bool {
    match u
    case ThePlayer => s.hasPlayer
    case TheDoor => s.hasDoor
  }

  function Holder(b: Board, u: Sole): Entity {
    match u
    case ThePlayer => b.player
    case TheDoor => b.door
  }

  /** A map is accepted when it holds a player and a door. */
  ghost predicate MapAccepted(lines: seq<string>) {
    HasSymbol(lines, 'P') && HasSymbol(lines, 'D')
  }

  // ---------------------------------------------------------------------
  // The independent description is what it says.

  lemma {:induction false} RowCellsMembership(line: string, ch: char, r: int, p: Position)
    ensures p in RowCells(line, ch, r) <==> p.y == r && 0 <= p.x < |line| && line[p.x] == ch
    decreases |line|
  {
    if |line| > 0 {
      var c := |line| - 1;
      RowCellsMembership(line[..c], ch, r, p);
    }
  }

  /** Every cell listed holds the symbol, and every cell holding the symbol is listed. */
  lemma {:induction false} GridCellsMembership(lines: seq<string>, ch: char, p: Position)
    ensures p in GridCells(lines, ch) <==> HoldsAt(lines, ch, p)
    decreases |lines|
  {
    if |lines| > 0 {
      var r := |lines| - 1;
      GridCellsMembership(lines[..r], ch, p);
      RowCellsMembership(lines[r], ch, r, p);
    }
  }

  lemma {:induction false} RowCellsOrdered(line: string, ch: char, r: int)
    ensures forall i :: 0 <= i < |RowCells(line, ch, r)| ==>
      RowCells(line, ch, r)[i].y == r && 0 <= RowCells(line, ch, r)[i].x < |line|
    ensures forall i, j :: 0 <= i < j < |RowCells(line, ch, r)| ==>
      Before(RowCells(line, ch, r)[i], RowCells(line, ch, r)[j])
    decreases |line|
  {
    if |line| > 0 {
      RowCellsOrdered(line[..|line| - 1], ch, r);
    }
  }

  /** The listed cells come in strict reading order, each row's within the grid. */
  lemma {:induction false} GridCellsOrdered(lines: seq<string>, ch: char)
    ensures forall i :: 0 <= i < |GridCells(lines, ch)| ==> 0 <= GridCells(lines, ch)[i].y < |lines|
    ensures forall i, j :: 0 <= i < j < |GridCells(lines, ch)| ==>
      Before(GridCells(lines, ch)[i], GridCells(lines, ch)[j])
    decreases |lines|
  {
    if |lines| > 0 {
      var r := |lines| - 1;
      GridCellsOrdered(lines[..r], ch);
      RowCellsOrdered(lines[r], ch, r);
    }
  }

  lemma GridCellsNonEmpty(lines: seq<string>, ch: char)
    ensures |GridCells(lines, ch)| > 0 <==> HasSymbol(lines, ch)
  {
    var cells := GridCells(lines, ch);
    if |cells| > 0 {
      GridCellsMembership(lines, ch, cells[0]);
    }
    if HasSymbol(lines, ch) {
      var p :| HoldsAt(lines, ch, p);
      GridCellsMembership(lines, ch, p);
    }
  }

  // ---------------------------------------------------------------------
  // Appending to the partial results.

  lemma {:induction false} SpawnedConcat(rules: Rules, g: Group, a: seq<Position>, b: seq<Position>)
    ensures Spawned(rules, g, a + b) == Spawned(rules, g, a) + Spawned(rules, g, b)
    decreases |b|
  {
    if |b| > 0 {
      var b' := b[..|b| - 1];
      assert (a + b)[..|a + b| - 1] == a + b';
      SpawnedConcat(rules, g, a, b');
    } else {
      assert a + b == a;
    }
  }

  lemma {:induction false} GroundRectsConcat(a: seq<Position>, b: seq<Position>)
    ensures GroundRects(a + b) == GroundRects(a) + GroundRects(b)
    decreases |b|
  {
    if |b| > 0 {
      var b' := b[..|b| - 1];
      assert (a + b)[..|a + b| - 1] == a + b';
      GroundRectsConcat(a, b');
    } else {
      assert a + b == a;
    }
  }

  // ---------------------------------------------------------------------
  // What the pass produces.

  /** One character appends one entity to its symbol's collection and leaves
      every other collection alone. */
  lemma ScanCharMembers(rules: Rules, s: Scan, ch: char, c: int, r: int, g: Group)
    ensures Members(ScanChar(rules, s, ch, c, r).board, g)
      == Members(s.board, g) + (if ch == Symbol(g) then [SpawnAt(rules, g, Position(c, r))] else [])
  {
  }

  lemma {:induction false} ScanRowMembers(rules: Rules, s: Scan, line: string, r: int, g: Group)
    ensures Members(ScanRow(rules, s, line, r).board, g)
      == Members(s.board, g) + Spawned(rules, g, RowCells(line, Symbol(g), r))
    decreases |line|
  {
    if |line| == 0 {
      assert Members(s.board, g) + [] == Members(s.board, g);
    } else {
      var c := |line| - 1;
      var cells := RowCells(line[..c], Symbol(g), r);
      ScanRowMembers(rules, s, line[..c], r, g);
      ScanCharMembers(rules, ScanRow(rules, s, line[..c], r), line[c], c, r, g);
      if line[c] == Symbol(g) {
        SpawnedConcat(rules, g, cells, [Position(c, r)]);
        assert [Position(c, r)][..0] == [];
      } else {
        assert cells + [] == cells;
      }
    }
  }

  /** Each of A, S, F, G, T and C adds exactly one entity, at its own cell, to
      its own collection, in reading order; nothing else touches it. */
  lemma {:induction false} ScanGridMembers(rules: Rules, s: Scan, lines: seq<string>, g: Group)
    ensures Members(ScanGrid(rules, s, lines).board, g)
      == Members(s.board, g) + Spawned(rules, g, GridCells(lines, Symbol(g)))
    decreases |lines|
  {
    if |lines| == 0 {
      assert Members(s.board, g) + [] == Members(s.board, g);
    } else {
      var r := |lines| - 1;
      var prev := ScanGrid(rules, s, lines[..r]);
      ScanGridMembers(rules, s, lines[..r], g);
      ScanRowMembers(rules, prev, lines[r], r, g);
      SpawnedConcat(rules, g, GridCells(lines[..r], Symbol(g)), RowCells(lines[r], Symbol(g), r));
    }
  }

  lemma {:induction false} ScanRowGround(rules: Rules, s: Scan, line: string, r: int)
    ensures ScanRow(rules, s, line, r).board.ground == s.board.ground + GroundRects(RowCells(line, '*', r))
    decreases |line|
  {
    if |line| == 0 {
      assert s.board.ground + [] == s.board.ground;
    } else {
      var c := |line| - 1;
      var cells := RowCells(line[..c], '*', r);
      ScanRowGround(rules, s, line[..c], r);
      if line[c] == '*' {
        GroundRectsConcat(cells, [Position(c, r)]);
        assert [Position(c, r)][..0] == [];
      } else {
        assert cells + [] == cells;
      }
    }
  }

  /** Every '*' appends the ground rectangle of its cell, in reading order. */
  lemma {:induction false} ScanGridGround(rules: Rules, s: Scan, lines: seq<string>)
    ensures ScanGrid(rules, s, lines).board.ground == s.board.ground + GroundRects(GridCells(lines, '*'))
    decreases |lines|
  {
    if |lines| == 0 {
      assert s.board.ground + [] == s.board.ground;
    } else {
      var r := |lines| - 1;
      ScanGridGround(rules, s, lines[..r]);
      ScanRowGround(rules, ScanGrid(rules, s, lines[..r]), lines[r], r);
      GroundRectsConcat(GridCells(lines[..r], '*'), RowCells(lines[r], '*', r));
    }
  }

  lemma {:induction false} ScanRowSole(rules: Rules, s: Scan, line: string, r: int, u: Sole)
    ensures var cells := RowCells(line, SoleSymbol(u), r);
      && Seen(ScanRow(rules, s, line, r), u) == (Seen(s, u) || |cells| > 0)
      && Holder(ScanRow(rules, s, line, r).board, u)
         == if |cells| > 0 then rules.spawn(SoleKind(u), cells[|cells| - 1].x, cells[|cells| - 1].y) else Holder(s.board, u)
    decreases |line|
  {
    if |line| > 0 {
      ScanRowSole(rules, s, line[..|line| - 1], r, u);
    }
  }

  /** P and D overwrite the single player and door: the last occurrence in
      reading order wins, and the flag records whether there was one. */
  lemma {:induction false} ScanGridSole(rules: Rules, s: Scan, lines: seq<string>, u: Sole)
    ensures var cells := GridCells(lines, SoleSymbol(u));
      && Seen(ScanGrid(rules, s, lines), u) == (Seen(s, u) || |cells| > 0)
      && Holder(ScanGrid(rules, s, lines).board, u)
         == if |cells| > 0 then rules.spawn(SoleKind(u), cells[|cells| - 1].x, cells[|cells| - 1].y) else Holder(s.board, u)
    decreases |lines|
  {
    if |lines| > 0 {
      var r := |lines| - 1;
      ScanGridSole(rules, s, lines[..r], u);
      ScanRowSole(rules, ScanGrid(rules, s, lines[..r]), lines[r], r, u);
    }
  }

  /** Only '[' and ']' move the patrol markers, and no character adds a monster. */
  lemma ScanCharMarkers(rules: Rules, t: Scan, ch: char, c: int, r: int)
    ensures ScanChar(rules, t, ch, c, r).x1 == if ch == '[' then c else t.x1
    ensures ScanChar(rules, t, ch, c, r).x2 == if ch == ']' then c else t.x2
    ensures ScanChar(rules, t, ch, c, r).board.monsters == t.board.monsters
  {
  }

  lemma {:induction false} ScanRowMarkers(rules: Rules, s: Scan, line: string, r: int)
    ensures ScanRow(rules, s, line, r).x1 == LastColumn(line, '[', s.x1)
    ensures ScanRow(rules, s, line, r).x2 == LastColumn(line, ']', s.x2)
    ensures ScanRow(rules, s, line, r).board.monsters == s.board.monsters
    decreases |line|
  {
    if |line| > 0 {
      var c := |line| - 1;
      ScanRowMarkers(rules, s, line[..c], r);
      ScanCharMarkers(rules, ScanRow(rules, s, line[..c], r), line[c], c, r);
    }
  }

  /** At the end of every row a monster (x1, x2, row) is appended exactly when
      the last '[' and the last ']' of the row (0 when absent) differ; the
      markers are back at 0 after every row. */
  lemma {:induction false} ScanGridMonsters(rules: Rules, s: Scan, lines: seq<string>)
    requires s.x1 == 0 && s.x2 == 0
    ensures ScanGrid(rules, s, lines).board.monsters == s.board.monsters + MonsterRows(rules, lines)
    ensures ScanGrid(rules, s, lines).x1 == 0 && ScanGrid(rules, s, lines).x2 == 0
    decreases |lines|
  {
    if |lines| == 0 {
      assert s.board.monsters + [] == s.board.monsters;
    } else {
      var r := |lines| - 1;
      ScanGridMonsters(rules, s, lines[..r]);
      ScanRowMarkers(rules, ScanGrid(rules, s, lines[..r]), lines[r], r);
    }
  }

  /** A lone ']' in column k, with no '[', gives a monster patrolling 0..k. */
  lemma LoneClosingMarker(rules: Rules, line: string, k: int)
    requires 0 < k < |line| && line[k] == ']'
    requires '[' !in line && forall j :: k < j < |line| ==> line[j] != ']'
    ensures MonsterRows(rules, [line]) == [Monster(0, k, 0, rules.spawnMonster(0, k, 0))]
  {
    assert [line][..0] == [];
  }

  /** The pass reports a player and a door exactly when the grid holds both. */
  lemma ScanGridAccepts(rules: Rules, b: Board, lines: seq<string>)
    ensures var s := ScanGrid(rules, Start(b), lines);
      s.hasPlayer && s.hasDoor <==> MapAccepted(lines)
  {
    ScanGridSole(rules, Start(b), lines, ThePlayer);
    ScanGridSole(rules, Start(b), lines, TheDoor);
    GridCellsNonEmpty(lines, 'P');
    GridCellsNonEmpty(lines, 'D');
  }
}
