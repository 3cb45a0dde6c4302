/** The level manager (src/level_manager.cpp): the paths of the game data,
    the index of level directories, the active level and its index, and the
    tick of the first frame shown. display and prepare_next_level update them
    step by step; both are proved against the Sequencing machine. */
module Manager {
  import opened Entities
  import opened MapScan
  import opened Frame
  import opened Levels
  import opened Sequencing

  /** The file names the game reads: the level index under the data
      directory, and each level's map and background inside its own
      directory. */
  datatype FileNames = FileNames(index: string, levelMap: string, levelBg: string)

  datatype Option<T> = None | Some(value: T)

  class LevelManager {
    const settings: Settings
    const names: FileNames

    var levelBasePath: string
    var levelDataPath: string
    var levelAssetPath: string
    var indexPath: string
    /** The level directories, in the order of the index file. */
    var levelIds: seq<string>
    /** The index of the active level in levelIds, -1 when none is active. */
    var currentLevelId: int
    var currentLevel: Level
    /** The tick of the first frame shown, or the initial value until then. */
    var startTime: int

    /** The map file of the level at index k. */
    function MapPath(k: int): string
      reads this
      requires 0 <= k < |levelIds|
    {
      levelDataPath + levelIds[k] + "/" + names.levelMap
    }

    /** The background image of the level at index k. */
    function BgPath(k: int): string
      reads this
      requires 0 <= k < |levelIds|
    {
      levelDataPath + levelIds[k] + "/" + names.levelBg
    }

    /** The index is in range or -1; a level is active exactly when the
        current level is loaded, and then it is the level built for that
        index. */
    ghost predicate Valid()
      reads this, currentLevel
    {
      && -1 <= currentLevelId < |levelIds|
      && (currentLevelId > -1 <==> currentLevel.isLoad)
      && (currentLevelId > -1 ==>
            && currentLevel.lvlMapPath == MapPath(currentLevelId)
            && currentLevel.lvlBgPath == BgPath(currentLevelId)
            && currentLevel.lvlAssetPath == levelAssetPath)
      && currentLevel.rules == settings.rules
      && currentLevel.timeBonusValue == settings.timeBonusValue
    }

    /** No level is active and the index is empty; the paths are empty until
        they are set. */
    constructor (settings: Settings, names: FileNames, initialStartTime: int)
      ensures Valid() && currentLevelId == -1 && levelIds == []
      ensures fresh(currentLevel)
      ensures startTime == initialStartTime
      ensures this.settings == settings && this.names == names
    {
      this.settings := settings;
      this.names := names;
      levelBasePath, levelDataPath, levelAssetPath, indexPath := "", "", "", "";
      levelIds := [];
      currentLevelId := -1;
      currentLevel := new Level("", "", "", settings);
      startTime := initialStartTime;
    }

    /** The data and asset directories lie under the base path, and the index
        file in the data directory. */
    method InitPaths(path: string)
      modifies this`levelBasePath, this`levelDataPath, this`levelAssetPath, this`indexPath
      ensures levelBasePath == path
      ensures levelDataPath == path + "data/"
      ensures levelAssetPath == path + "assets/"
      ensures indexPath == path + "data/" + names.index
    {
      levelBasePath := path;
      levelDataPath := levelBasePath + "data/";
      levelAssetPath := levelBasePath + "assets/";
      indexPath := levelDataPath + names.index;
    }

    /** Sets the paths and appends every line of the index file, in order,
        to the level directories; fails when the index cannot be opened. */
    method LoadIndex(path: string, files: map<string, seq<string>>) returns (ok: bool)
      modifies this`levelBasePath, this`levelDataPath, this`levelAssetPath, this`indexPath, this`levelIds
      ensures levelDataPath == path + "data/" && levelAssetPath == path + "assets/"
      ensures indexPath == path + "data/" + names.index
      ensures ok <==> indexPath in files
      ensures levelIds == old(levelIds) + (if ok then files[indexPath] else [])
      ensures old(currentLevelId) == -1 && old(Valid()) ==> Valid()
    {
      InitPaths(path);
      if indexPath !in files {
        return false;
      }
      var lines := files[indexPath];
      var i := 0;
      while i < |lines|
        invariant 0 <= i <= |lines|
        invariant levelIds == old(levelIds) + lines[..i]
        invariant levelDataPath == path + "data/" && levelAssetPath == path + "assets/"
        invariant indexPath == path + "data/" + names.index
      {
        levelIds := levelIds + [lines[i]];
        i := i + 1;
      }
      assert lines[..i] == lines;
      return true;
    }

    /** The level at index k loads: its map can be read and is accepted, and
        its other resources can be created. */
    ghost predicate Loads(files: map<string, seq<string>>, assetsReady: bool, k: int)
      reads this
    {
      0 <= k < |levelIds| && MapPath(k) in files && MapAccepted(files[MapPath(k)]) && assetsReady
    }

    /** The state of the level that the next call of display renders, if it
        gets that far: the active level when it is not finished, else the next
        level freshly loaded, if there is one and it loads. */
    ghost function Upcoming(files: map<string, seq<string>>, assetsReady: bool): Option<LevelState>
      reads this, currentLevel
    {
      if !Advances(currentLevelId, currentLevel.isFinish) then Some(currentLevel.State())
      else if Loads(files, assetsReady, currentLevelId + 1) then
        Some(LoadedState(settings, files[MapPath(currentLevelId + 1)]))
      else None
    }

    /** The frame that the next call of display renders goes on. */
    ghost predicate Shows(files: map<string, seq<string>>, assetsReady: bool, now: int)
      reads this, currentLevel
    {
      var up := Upcoming(files, assetsReady);
      up.Some? && RenderFrame(settings.rules, settings.timeBonusValue, up.value, now).1
    }

    /** Unloads the active level, if any, and moves to the next index; past
        the last index is the ending, otherwise a new level is built from the
        paths of that index and loaded. */
    method PrepareNextLevel(files: map<string, seq<string>>, assetsReady: bool) returns (ok: bool)
      requires Valid()
      modifies this`currentLevelId, this`currentLevel, currentLevel
      ensures currentLevelId == old(currentLevelId) + 1 <= |levelIds|
      ensures old(currentLevelId) > -1 ==> !old(currentLevel).isLoad
      ensures old(currentLevelId) == -1 ==> old(currentLevel).isLoad == old(currentLevel.isLoad)
      ensures currentLevelId == |levelIds| ==> !ok && currentLevel == old(currentLevel)
      ensures currentLevelId < |levelIds| ==>
        && fresh(currentLevel)
        && currentLevel.lvlMapPath == MapPath(currentLevelId)
        && currentLevel.lvlBgPath == BgPath(currentLevelId)
        && currentLevel.lvlAssetPath == levelAssetPath
        && currentLevel.rules == settings.rules && currentLevel.timeBonusValue == settings.timeBonusValue
        && (ok <==> Loads(files, assetsReady, currentLevelId))
        && currentLevel.isLoad == ok
        && currentLevel.State() == (if MapPath(currentLevelId) in files
                                    then LoadedState(settings, files[MapPath(currentLevelId)])
                                    else FreshState(settings))
    {
      if currentLevelId > -1 {
        currentLevel.Unload();
      }
      currentLevelId := currentLevelId + 1;
      if currentLevelId == |levelIds| {
        return false;
      }
      var lvlMap := levelDataPath + levelIds[currentLevelId] + "/" + names.levelMap;
      var lvlBgPath := levelDataPath + levelIds[currentLevelId] + "/" + names.levelBg;
      currentLevel := new Level(lvlMap, lvlBgPath, levelAssetPath, settings);
      ok := currentLevel.Load(files, assetsReady);
    }

    /** The first part of display: moves on to the next level when no level
        is active or the active one is finished. On success the current level
        is the one to render, in the state Upcoming promised; on failure (the
        ending, or a level that does not load) no level is active. */
    method SelectLevel(files: map<string, seq<string>>, assetsReady: bool) returns (ready: bool)
      requires Valid()
      modifies this`currentLevelId, this`currentLevel, currentLevel
      ensures Valid()
      ensures ready <==> old(Upcoming(files, assetsReady)).Some?
      ensures ready ==> currentLevel.State() == old(Upcoming(files, assetsReady)).value
      ensures ready ==> (currentLevelId
        == if Advances(old(currentLevelId), old(currentLevel.isFinish)) then old(currentLevelId) + 1 else old(currentLevelId))
      ensures !ready ==> currentLevelId == -1
      ensures !Advances(old(currentLevelId), old(currentLevel.isFinish)) ==> currentLevel == old(currentLevel)
      ensures currentLevel == old(currentLevel) || fresh(currentLevel)
    {
      if currentLevelId > -1 {
        if currentLevel.IsFinished() {
          var prepared := PrepareNextLevel(files, assetsReady);
          if !prepared {
            currentLevelId := -1;
            return false;
          }
        }
      } else {
        var prepared := PrepareNextLevel(files, assetsReady);
        if !prepared {
          currentLevelId := -1;
          return false;
        }
      }
      return true;
    }

    /** One call of display at tick now: selects the level to show, notes
        the tick of the first frame, and renders a frame; any failure (the
        ending, a level that does not load, a frame that fails) leaves no
        level active. */
    method Display(now: int, files: map<string, seq<string>>, assetsReady: bool) returns (ok: bool)
      requires Valid()
      modifies this`currentLevelId, this`currentLevel, this`startTime, currentLevel
      ensures Valid()
      ensures ok ==> 0 <= currentLevelId < |levelIds|
      ensures !ok ==> currentLevelId == -1
      ensures (currentLevelId, ok)
        == DisplayStep(old(currentLevelId), |levelIds|, old(currentLevel.isFinish),
                       old(Loads(files, assetsReady, currentLevelId + 1)), old(Shows(files, assetsReady, now)))
      ensures ok ==> (currentLevel.State()
        == RenderFrame(settings.rules, settings.timeBonusValue, old(Upcoming(files, assetsReady)).value, now).0)
      ensures startTime == if old(startTime) == -1 && old(Upcoming(files, assetsReady)).Some? then now else old(startTime)
      ensures !ok && old(Upcoming(files, assetsReady)).Some? ==> (currentLevel.State()
        == Unloaded(settings.rules, RenderFrame(settings.rules, settings.timeBonusValue, old(Upcoming(files, assetsReady)).value, now).0))
      ensures currentLevel == old(currentLevel) || fresh(currentLevel)
    {
      var ready := SelectLevel(files, assetsReady);
      if !ready {
        return false;
      }
      ok := Show(now);
    }

    /** The second part of display, on a selected level: notes the tick of the
        first frame and renders one; a frame that fails unloads the level and
        leaves no level active. */
    method Show(now: int) returns (ok: bool)
      requires Valid() && currentLevelId > -1
      modifies this`currentLevelId, this`startTime, currentLevel
      ensures Valid()
      ensures ok == RenderFrame(settings.rules, settings.timeBonusValue, old(currentLevel.State()), now).1
      ensures ok ==> currentLevel.State() == RenderFrame(settings.rules, settings.timeBonusValue, old(currentLevel.State()), now).0
      ensures currentLevelId == if ok then old(currentLevelId) else -1
      ensures startTime == if old(startTime) == -1 then now else old(startTime)
      ensures !ok ==> (currentLevel.State()
        == Unloaded(settings.rules, RenderFrame(settings.rules, settings.timeBonusValue, old(currentLevel.State()), now).0))
    {
      if startTime == -1 {
        startTime := now;
      }
      var rendered := currentLevel.Render(now);
      if !rendered {
        currentLevel.Unload();
        currentLevelId := -1;
        return false;
      }
      return true;
    }

    /** Events go to the active level only, and change only its board. */
    method OnEvent(ev: Event)
      requires Valid()
      modifies currentLevel`board
      ensures Valid()
      ensures currentLevel.timers == old(currentLevel.timers) && currentLevel.isFinish == old(currentLevel.isFinish)
      ensures currentLevelId > -1 ==> currentLevel.board == HandleEvent(settings.rules, old(currentLevel.board), ev)
      ensures currentLevelId == -1 ==> currentLevel.board == old(currentLevel.board)
    {
      if currentLevelId > -1 {
        currentLevel.OnEvent(ev);
      }
    }
  }
}
