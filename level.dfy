/** The level engine (src/level.cpp): one level's board, timers and flags,
    updated in place by loading the map, by each frame, by the erase action
    and by keyboard moves. Every operation is proved against the functions of
    MapScan and Frame. */
module Levels {
  import opened Geometry
  import opened Collision
  import opened Entities
  import opened MapScan
  import opened Frame
  import Plantivorus

  /** What a level is built with besides its paths: the entity behaviour, the
      seconds a time bonus adds, and the initial countdown and fire times. */
  datatype Settings = Settings(rules: Rules, timeBonusValue: int, startTimers: Timers)

  /** The board of a level before its map is read: nothing placed, the player
      and the door default-constructed in cell (0, 0). */
  function EmptyBoard(rules: Rules): Board {
    Board([], rules.spawn(PlayerKind, 0, 0), rules.spawn(DoorKind, 0, 0), [], [], [], [], [], [], [])
  }

  function FreshState(settings: Settings): LevelState {
    LevelState(EmptyBoard(settings.rules), settings.startTimers, false)
  }

  /** The state of a new level once the given map has been read into it. */
  function LoadedState(settings: Settings, lines: seq<string>): LevelState {
    FreshState(settings).(board := ScanGrid(settings.rules, Start(EmptyBoard(settings.rules)), lines).board)
  }

  /** The state unload leaves: no ground and a reborn player, everything
      else as it was. */
  function Unloaded(rules: Rules, st: LevelState): LevelState {
    st.(board := st.board.(ground := [], player := rules.reborn(st.board.player)))
  }

  class Level {
    const lvlMapPath: string
    const lvlBgPath: string
    const lvlAssetPath: string
    const rules: Rules
    const timeBonusValue: int

    /** The ground rectangles, the player, the door and the entity vectors. */
    var board: Board
    /** The countdown, the tick of the last frame and the next fire times. */
    var timers: Timers
    var isFinish: bool
    var isLoad: bool

    ghost function State(): LevelState
      reads this
    {
      LevelState(board, timers, isFinish)
    }

    /** A level knows its files; nothing is loaded yet. */
    constructor (mapPath: string, bgPath: string, assetPath: string, settings: Settings)
      ensures lvlMapPath == mapPath && lvlBgPath == bgPath && lvlAssetPath == assetPath
      ensures rules == settings.rules && timeBonusValue == settings.timeBonusValue
      ensures State() == FreshState(settings) && !isLoad
    {
      lvlMapPath, lvlBgPath, lvlAssetPath := mapPath, bgPath, assetPath;
      rules, timeBonusValue := settings.rules, settings.timeBonusValue;
      board := EmptyBoard(settings.rules);
      timers := settings.startTimers;
      isFinish, isLoad := false, false;
    }

    function IsFinished(): bool
      reads this
    {
      isFinish
    }

    /** Appends the ground tile of cell (pX, pY). */
    method AddRect(pX: int, pY: int)
      modifies this`board
      ensures board == old(board).(ground := old(board).ground + [GroundRect(pX, pY)])
    {
      var tmpRect := Rect(pX * CellSize, pY * CellSize, GroundWidth, GroundHeight);
      board := board.(ground := board.ground + [tmpRect]);
    }

    /** Reads the map file at path, if it can be opened, into the board; the
        map is accepted when it holds a player and a door. */
    method LoadMap(path: string, files: map<string, seq<string>>) returns (ok: bool)
      modifies this`board
      ensures path in files ==> board == ScanGrid(rules, Start(old(board)), files[path]).board
      ensures path !in files ==> board == old(board)
      ensures ok <==> path in files && MapAccepted(files[path])
    {
      var hasDoor := false;
      var hasPlayer := false;
      if path !in files {
        return false;
      }
      var lines := files[path];
      ghost var start := Start(old(board));
      var lineIdx := 0;
      var colIdx := 0;
      var monsterX1 := 0;
      var monsterX2 := 0;
      while lineIdx < |lines|
        invariant 0 <= lineIdx <= |lines| && colIdx == 0
        invariant Scan(board, hasPlayer, hasDoor, monsterX1, monsterX2) == ScanGrid(rules, start, lines[..lineIdx])
      {
        var line := lines[lineIdx];
        ghost var rowStart := ScanGrid(rules, start, lines[..lineIdx]);
        while colIdx < |line|
          invariant 0 <= colIdx <= |line|
          invariant Scan(board, hasPlayer, hasDoor, monsterX1, monsterX2) == ScanRow(rules, rowStart, line[..colIdx], lineIdx)
          decreases |line| - colIdx
        {
          hasPlayer, hasDoor, monsterX1, monsterX2 := PlaceSymbol(line[colIdx], colIdx, lineIdx, hasPlayer, hasDoor, monsterX1, monsterX2);
          assert line[..colIdx + 1][..colIdx] == line[..colIdx];
          colIdx := colIdx + 1;
        }
        assert line[..colIdx] == line;
        if monsterX1 != monsterX2 {
          var monster := Monster(monsterX1, monsterX2, lineIdx, rules.spawnMonster(monsterX1, monsterX2, lineIdx));
          board := board.(monsters := board.monsters + [monster]);
        }
        monsterX1 := 0;
        monsterX2 := 0;
        colIdx := 0;
        assert lines[..lineIdx + 1][..lineIdx] == lines[..lineIdx];
        lineIdx := lineIdx + 1;
      }
      assert lines[..lineIdx] == lines;
      ScanGridAccepts(rules, old(board), lines);
      if !hasPlayer {
        return false;
      }
      if !hasDoor {
        return false;
      }
      return true;
    }

    /** The effect of one map symbol in cell (c, r) on the board, on the
        player and door flags and on the monster interval markers. */
    method PlaceSymbol(ch: char, c: int, r: int, hasPlayer: bool, hasDoor: bool, x1: int, x2: int)
      returns (hasPlayer': bool, hasDoor': bool, x1': int, x2': int)
      modifies this`board
      ensures Scan(board, hasPlayer', hasDoor', x1', x2')
        == ScanChar(rules, Scan(old(board), hasPlayer, hasDoor, x1, x2), ch, c, r)
    {
      hasPlayer', hasDoor', x1', x2' := hasPlayer, hasDoor, x1, x2;
      match ch {
        case '*' =>
          AddRect(c, r);
        case 'P' =>
          hasPlayer' := true;
          board := board.(player := rules.spawn(PlayerKind, c, r));
        case 'D' =>
          hasDoor' := true;
          board := board.(door := rules.spawn(DoorKind, c, r));
        case 'A' =>
          board := board.(arachnes := board.arachnes + [rules.spawn(ArachneKind, c, r)]);
        case '[' =>
          x1' := c;
        case ']' =>
          x2' := c;
        case 'S' =>
          board := board.(spikes := board.spikes + [rules.spawn(SpikeKind, c, r)]);
        case 'F' =>
          var plant := new Plantivorus.Plantivorus(c, r);
          var plantRect := plant.GetRect();
          board := board.(plants := board.plants + [Entity(plant.pos, plantRect, plant.spriteRect.x)]);
        case 'G' =>
          board := board.(ghosts := board.ghosts + [rules.spawn(GhostKind, c, r)]);
        case 'T' =>
          board := board.(timeBonuses := board.timeBonuses + [rules.spawn(TimeBonusKind, c, r)]);
        case 'C' =>
          board := board.(pencils := board.pencils + [rules.spawn(PencilKind, c, r)]);
        case _ =>
      }
    }

    /** Loads the level: its map, then its textures, music and sounds (one
        flag says whether all of those could be created). */
    method Load(files: map<string, seq<string>>, assetsReady: bool) returns (ok: bool)
      modifies this`board, this`isLoad
      ensures ok <==> lvlMapPath in files && MapAccepted(files[lvlMapPath]) && assetsReady
      ensures lvlMapPath in files ==> board == ScanGrid(rules, Start(old(board)), files[lvlMapPath]).board
      ensures lvlMapPath !in files ==> board == old(board)
      ensures isLoad == (old(isLoad) || ok)
    {
      var mapLoaded := LoadMap(lvlMapPath, files);
      if !mapLoaded {
        return false;
      }
      if !assetsReady {
        return false;
      }
      isLoad := true;
      return true;
    }

    /** Releases the level: the ground is cleared, the player is reborn and the
        level is no longer loaded; the other collections stay as they are. */
    method Unload()
      modifies this`board, this`isLoad
      ensures board == old(board).(ground := [], player := rules.reborn(old(board).player))
      ensures State() == Unloaded(rules, old(State()))
      ensures !isLoad
    {
      board := board.(ground := [], player := rules.reborn(board.player));
      isLoad := false;
    }

    method CheckGroundCollision() returns (hit: bool)
      ensures hit <==> AnyHit(board.player.rect, board.ground)
    {
      hit := AnyIntersecting(board.player.rect, board.ground);
    }

    method CheckTimeBonusCollision() returns (idx: int)
      ensures -1 <= idx < |board.timeBonuses|
      ensures idx == LastHit(board.player.rect, Rects(board.timeBonuses))
    {
      idx := LastIntersecting(board.player.rect, Rects(board.timeBonuses));
    }

    method CheckDangerCollision() returns (hit: bool)
      ensures hit <==> Dangerous(board)
    {
      var p := board.player.rect;
      hit := AnyIntersecting(p, Rects(board.spikes));
      if hit { return; }
      hit := AnyIntersecting(p, Rects(board.plants));
      if hit { return; }
      hit := AnyIntersecting(p, Rects(board.ghosts));
      if hit { return; }
      hit := AnyIntersecting(p, Rects(board.arachnes));
      if hit { return; }
      hit := AnyIntersecting(p, MonsterRects(board.monsters));
    }

    method CheckDoorCollision() returns (hit: bool)
      ensures hit <==> DoorReached(board)
    {
      hit := Intersects(board.player.rect, board.door.rect);
    }

    /** One frame at tick now (drawing left out): countdown, cadences,
        danger, door and time-bonus pickup. */
    method Render(now: int) returns (ok: bool)
      modifies this`board, this`timers, this`isFinish
      ensures (State(), ok) == RenderFrame(rules, timeBonusValue, old(State()), now)
    {
      timers := timers.(currentTime := now);
      if timers.currentTime > timers.nextTimeRefresh {
        timers := timers.(availableTime := timers.availableTime - 1);
        if timers.availableTime <= 0 {
          return false;
        }
        timers := timers.(nextTimeRefresh := timers.currentTime + TimerPeriod);
      }
      UpdateCadences();
      var danger := CheckDangerCollision();
      if danger {
        return false;
      }
      Conclude();
      return true;
    }

    /** The cadence part of a frame: each kind of entity that is due moves or
        switches its animation, and its next fire time is rescheduled. */
    method UpdateCadences()
      modifies this`board, this`timers
      ensures board == Animate(rules, old(board), old(timers), old(timers).currentTime)
      ensures timers == Tick(old(timers), old(timers).currentTime)
    {
      FallDown();
      MoveMonsters();
      SwitchSpikes();
      SwitchPlants();
      SwitchArachnes();
    }

    /** The player walks on with a jump or falls, every FallPeriod ms. */
    method FallDown()
      modifies this`board, this`timers
      ensures board == old(board).(player := if !Due(old(timers).nextFallDown, timers.currentTime) then old(board).player
                                             else if rules.isJumping(old(board).player) then rules.walk(old(board).player)
                                             else rules.fall(old(board).player, old(board).ground))
      ensures timers == old(timers).(nextFallDown := Reschedule(old(timers).nextFallDown, timers.currentTime, FallPeriod))
    {
      if timers.currentTime > timers.nextFallDown {
        if rules.isJumping(board.player) {
          board := board.(player := rules.walk(board.player));
        } else {
          board := board.(player := rules.fall(board.player, board.ground));
        }
        timers := timers.(nextFallDown := timers.currentTime + FallPeriod);
      }
    }

    /** Every monster takes a patrol step, every MonsterPeriod ms. */
    method MoveMonsters()
      modifies this`board, this`timers
      ensures board == old(board).(monsters := if Due(old(timers).nextMonsterMove, timers.currentTime)
                                               then Mapped(old(board).monsters, rules.moveMonster) else old(board).monsters)
      ensures timers == old(timers).(nextMonsterMove := Reschedule(old(timers).nextMonsterMove, timers.currentTime, MonsterPeriod))
    {
      if timers.currentTime > timers.nextMonsterMove {
        var monsters := StepAll(board.monsters, rules.moveMonster);
        board := board.(monsters := monsters);
        timers := timers.(nextMonsterMove := timers.currentTime + MonsterPeriod);
      }
    }

    /** Every spike switches its animation, every SpikePeriod ms. */
    method SwitchSpikes()
      modifies this`board, this`timers
      ensures board == old(board).(spikes := if Due(old(timers).nextSpikesUpdate, timers.currentTime)
                                             then Mapped(old(board).spikes, rules.switchSpikes) else old(board).spikes)
      ensures timers == old(timers).(nextSpikesUpdate := Reschedule(old(timers).nextSpikesUpdate, timers.currentTime, SpikePeriod))
    {
      if timers.currentTime > timers.nextSpikesUpdate {
        var spikes := StepAll(board.spikes, rules.switchSpikes);
        board := board.(spikes := spikes);
        timers := timers.(nextSpikesUpdate := timers.currentTime + SpikePeriod);
      }
    }

    /** Every plant switches its position, every PlantPeriod ms. */
    method SwitchPlants()
      modifies this`board, this`timers
      ensures board == old(board).(plants := if Due(old(timers).nextPlantsUpdate, timers.currentTime)
                                             then Mapped(old(board).plants, rules.switchPlant) else old(board).plants)
      ensures timers == old(timers).(nextPlantsUpdate := Reschedule(old(timers).nextPlantsUpdate, timers.currentTime, PlantPeriod))
    {
      if timers.currentTime > timers.nextPlantsUpdate {
        var plants := StepAll(board.plants, rules.switchPlant);
        board := board.(plants := plants);
        timers := timers.(nextPlantsUpdate := timers.currentTime + PlantPeriod);
      }
    }

    /** Every arachne and every ghost switches its position, on the shared
        ArachnePeriod cadence. */
    method SwitchArachnes()
      modifies this`board, this`timers
      ensures board == old(board).(arachnes := if Due(old(timers).nextArachnesUpdate, timers.currentTime)
                                               then Mapped(old(board).arachnes, rules.switchArachne) else old(board).arachnes,
                                   ghosts := if Due(old(timers).nextArachnesUpdate, timers.currentTime)
                                             then Mapped(old(board).ghosts, rules.switchGhost) else old(board).ghosts)
      ensures timers == old(timers).(nextArachnesUpdate := Reschedule(old(timers).nextArachnesUpdate, timers.currentTime, ArachnePeriod))
    {
      if timers.currentTime > timers.nextArachnesUpdate {
        var arachnes := StepAll(board.arachnes, rules.switchArachne);
        var ghosts := StepAll(board.ghosts, rules.switchGhost);
        board := board.(arachnes := arachnes, ghosts := ghosts);
        timers := timers.(nextArachnesUpdate := timers.currentTime + ArachnePeriod);
      }
    }

    /** The end of a frame the player survived: the door and the time bonuses. */
    method Conclude()
      modifies this`board, this`timers, this`isFinish
      ensures State() == Frame.Conclude(timeBonusValue, old(State()))
    {
      ghost var st := State();
      var atDoor := CheckDoorCollision();
      if atDoor {
        isFinish := true;
      }
      assert isFinish == (st.isFinish || DoorReached(st.board));
      var tbonusIdx := CheckTimeBonusCollision();
      if tbonusIdx > -1 {
        board := board.(timeBonuses := RemoveAt(board.timeBonuses, tbonusIdx));
        timers := timers.(availableTime := timers.availableTime + timeBonusValue);
      }
    }

    /** Erases, under the square probe at (mx, my), the last spike, else the
        last plant, else the last arachne, else the last monster, else the
        last time bonus found there. */
    method EraseUnder(mx: int, my: int) returns (erased: bool)
      modifies this`board
      ensures (board, erased) == Erase(old(board), Probe(mx, my))
    {
      var mouseRect := Probe(mx, my);
      var removalId := LastIntersecting(mouseRect, Rects(board.spikes));
      if removalId > -1 {
        board := board.(spikes := RemoveAt(board.spikes, removalId));
        return true;
      }
      removalId := LastIntersecting(mouseRect, Rects(board.plants));
      if removalId > -1 {
        board := board.(plants := RemoveAt(board.plants, removalId));
        return true;
      }
      removalId := LastIntersecting(mouseRect, Rects(board.arachnes));
      if removalId > -1 {
        board := board.(arachnes := RemoveAt(board.arachnes, removalId));
        return true;
      }
      removalId := LastIntersecting(mouseRect, MonsterRects(board.monsters));
      if removalId > -1 {
        board := board.(monsters := RemoveAt(board.monsters, removalId));
        return true;
      }
      removalId := LastIntersecting(mouseRect, Rects(board.timeBonuses));
      if removalId > -1 {
        board := board.(timeBonuses := RemoveAt(board.timeBonuses, removalId));
        return true;
      }
      return false;
    }

    /** Arrow keys steer the player; a mouse press erases under the mouse. */
    method OnEvent(ev: Event)
      modifies this`board
      ensures board == HandleEvent(rules, old(board), ev)
    {
      match ev
      case KeyDown(Left) =>
        board := board.(player := rules.moveX(board.player, -1));
        var hit := CheckGroundCollision();
        if hit {
          board := board.(player := rules.moveX(board.player, 1));
        }
      case KeyDown(Right) =>
        board := board.(player := rules.moveX(board.player, 1));
        var hit := CheckGroundCollision();
        if hit {
          board := board.(player := rules.moveX(board.player, -1));
        }
      case KeyDown(Up) =>
        board := board.(player := rules.moveY(board.player, -2));
        var hit := CheckGroundCollision();
        if hit {
          board := board.(player := rules.moveY(board.player, 1));
        } else {
          board := board.(player := rules.jump(board.player));
        }
      case MouseDown(x, y) =>
        var erased := EraseUnder(x, y);
      case _ =>
    }
  }
}
