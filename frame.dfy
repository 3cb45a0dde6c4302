/** The logic of one frame of a level (the non-drawing part of
    Level::render), of the erase action (Level::erase_under) and of the
    keyboard moves (Level::on_event), stated as functions of the level's
    state, with lemmas about the timers, the outcome and the erase order. */
module Frame {
  import opened Geometry
  import opened Collision
  import opened Entities

  /** Periods of the six cadences, in milliseconds. */
  const TimerPeriod: int := 1000
  const FallPeriod: int := 80
  const MonsterPeriod: int := 180
  const SpikePeriod: int := 210
  const PlantPeriod: int := 1000
  const ArachnePeriod: int := 600

  /** Side of the square probe laid under the mouse by the erase action. */
  const ProbeSize: int := 32

  /** The countdown (seconds left), the tick of the last frame, and the tick
      after which each cadence fires next. */
  datatype Timers = Timers(
    availableTime: int,
    currentTime: int,
    nextTimeRefresh: int,
    nextFallDown: int,
    nextMonsterMove: int,
    nextSpikesUpdate: int,
    nextPlantsUpdate: int,
    nextArachnesUpdate: int)

  /** What a frame reads and changes: the board, the timers and whether the
      door has been reached. */
  datatype LevelState = LevelState(board: Board, timers: Timers, isFinish: bool)

  /** A cadence is due when the tick is strictly past its next fire time. */
  predicate Due(next: int, now: int) { now > next }

  /** After a frame at tick now, a cadence that fired waits one period from now. */
  function Reschedule(next: int, now: int, period: int): int {
    if Due(next, now) then now + period else next
  }

  /** The countdown step: when due, one second less; the level has run out of
      time when that leaves nothing, and then the countdown is not rescheduled. */
  function Countdown(t: Timers, now: int): (Timers, bool) {
    var t0 := t.(currentTime := now);
    if !Due(t.nextTimeRefresh, now) then (t0, true)
    else if t.availableTime - 1 <= 0 then (t0.(availableTime := t.availableTime - 1), false)
    else (t0.(availableTime := t.availableTime - 1, nextTimeRefresh := now + TimerPeriod), true)
  }

  /** The five other cadences, each rescheduled independently. */
  function Tick(t: Timers, now: int): Timers {
    t.(nextFallDown := Reschedule(t.nextFallDown, now, FallPeriod),
       nextMonsterMove := Reschedule(t.nextMonsterMove, now, MonsterPeriod),
       nextSpikesUpdate := Reschedule(t.nextSpikesUpdate, now, SpikePeriod),
       nextPlantsUpdate := Reschedule(t.nextPlantsUpdate, now, PlantPeriod),
       nextArachnesUpdate := Reschedule(t.nextArachnesUpdate, now, ArachnePeriod))
  }

  /** The entity updates of the cadences that are due: the player jumps on or
      falls, monsters patrol, spikes, plants, arachnes and ghosts animate. */
  function Animate(rules: Rules, b: Board, t: Timers, now: int): Board {
    var p := b.player;
    b.(player := if !Due(t.nextFallDown, now) then p
                 else if rules.isJumping(p) then rules.walk(p)
                 else rules.fall(p, b.ground),
       monsters := if Due(t.nextMonsterMove, now) then Mapped(b.monsters, rules.moveMonster) else b.monsters,
       spikes := if Due(t.nextSpikesUpdate, now) then Mapped(b.spikes, rules.switchSpikes) else b.spikes,
       plants := if Due(t.nextPlantsUpdate, now) then Mapped(b.plants, rules.switchPlant) else b.plants,
       arachnes := if Due(t.nextArachnesUpdate, now) then Mapped(b.arachnes, rules.switchArachne) else b.arachnes,
       ghosts := if Due(t.nextArachnesUpdate, now) then Mapped(b.ghosts, rules.switchGhost) else b.ghosts)
  }

  /** The end of a frame that the player survived: reaching the door marks the
      level finished, and the last time bonus the player overlaps is picked up,
      adding its value to the time left. */
  function Conclude(bonus: int, st: LevelState): LevelState {
    var b := st.board;
    var k := LastHit(b.player.rect, Rects(b.timeBonuses));
    var finished := st.isFinish || DoorReached(b);
    if k > -1 then
      LevelState(b.(timeBonuses := RemoveAt(b.timeBonuses, k)),
                 st.timers.(availableTime := st.timers.availableTime + bonus), finished)
    else LevelState(b, st.timers, finished)
  }

  /** The end of a frame, once the countdown and the cadences are done: a
      dangerous board ends the level, any other goes on. */
  function Settle(bonus: int, st: LevelState): (LevelState, bool) {
    if Dangerous(st.board) then (st, false) else (Conclude(bonus, st), true)
  }

  /** One frame at tick now: the new state, and whether the level goes on
      (false when the time ran out or the player touched something dangerous). */
  function RenderFrame(rules: Rules, bonus: int, st: LevelState, now: int): (LevelState, bool) {
    var (t1, inTime) := Countdown(st.timers, now);
    if !inTime then (st.(timers := t1), false)
    else Settle(bonus, LevelState(Animate(rules, st.board, t1, now), Tick(t1, now), st.isFinish))
  }

  // ---------------------------------------------------------------------
  // Timers.

  /** When the countdown is due it drops by exactly one; the level fails iff
      that leaves nothing, and then its next fire time is left as it was;
      otherwise it fires again one period after now. */
  lemma CountdownStep(rules: Rules, bonus: int, st: LevelState, now: int)
    requires Due(st.timers.nextTimeRefresh, now)
    ensures var (st', ok) := RenderFrame(rules, bonus, st, now);
      && (st.timers.availableTime - 1 <= 0 ==>
            !ok && st'.timers.availableTime == st.timers.availableTime - 1
            && st'.timers.nextTimeRefresh == st.timers.nextTimeRefresh && st'.board == st.board)
      && (st.timers.availableTime - 1 > 0 ==>
            && st'.timers.nextTimeRefresh == now + TimerPeriod
            && st'.timers.availableTime == st.timers.availableTime - 1
                 + (if |st'.board.timeBonuses| < |st.board.timeBonuses| then bonus else 0))
  {
  }

  /** Before its fire time the countdown keeps both its value and its schedule,
      unless a time bonus is picked up in that frame. */
  lemma CountdownIdle(rules: Rules, bonus: int, st: LevelState, now: int)
    requires !Due(st.timers.nextTimeRefresh, now)
    ensures var (st', ok) := RenderFrame(rules, bonus, st, now);
      && st'.timers.nextTimeRefresh == st.timers.nextTimeRefresh
      && (|st'.board.timeBonuses| == |st.board.timeBonuses| ==> st'.timers.availableTime == st.timers.availableTime)
  {
  }

  /** Unless the time runs out, every cadence fires on a strictly later tick
      only, and then waits exactly its period from now. When the time runs
      out no other cadence is touched. */
  lemma CadencesReschedule(rules: Rules, bonus: int, st: LevelState, now: int)
    ensures var (st', ok) := RenderFrame(rules, bonus, st, now);
      var t, t' := st.timers, st'.timers;
      && t'.currentTime == now
      && (Countdown(t, now).1 ==>
          && t'.nextFallDown == (if now > t.nextFallDown then now + 80 else t.nextFallDown)
          && t'.nextMonsterMove == (if now > t.nextMonsterMove then now + 180 else t.nextMonsterMove)
          && t'.nextSpikesUpdate == (if now > t.nextSpikesUpdate then now + 210 else t.nextSpikesUpdate)
          && t'.nextPlantsUpdate == (if now > t.nextPlantsUpdate then now + 1000 else t.nextPlantsUpdate)
          && t'.nextArachnesUpdate == (if now > t.nextArachnesUpdate then now + 600 else t.nextArachnesUpdate))
      && (!Countdown(t, now).1 ==>
          && t'.nextFallDown == t.nextFallDown && t'.nextMonsterMove == t.nextMonsterMove
          && t'.nextSpikesUpdate == t.nextSpikesUpdate && t'.nextPlantsUpdate == t.nextPlantsUpdate
          && t'.nextArachnesUpdate == t.nextArachnesUpdate)
  {
    var (t1, inTime) := Countdown(st.timers, now);
    if inTime {
      SettleKeepsSchedule(bonus, LevelState(Animate(rules, st.board, t1, now), Tick(t1, now), st.isFinish));
    }
  }

  /** The end of a frame changes no fire time and no tick; at most the time left. */
  lemma SettleKeepsSchedule(bonus: int, st: LevelState)
    ensures var t' := Settle(bonus, st).0.timers;
      t' == st.timers.(availableTime := t'.availableTime)
  {
  }

  /** A cadence fires at most once per tick: a second frame at the same tick
      finds every timer already past it. */
  lemma SameTickFiresOnce(t: Timers, now: int)
    requires Countdown(t, now).1
    ensures var t2 := Tick(Countdown(t, now).0, now);
      && !Due(t2.nextTimeRefresh, now)
      && !Due(t2.nextFallDown, now) && !Due(t2.nextMonsterMove, now)
      && !Due(t2.nextSpikesUpdate, now) && !Due(t2.nextPlantsUpdate, now)
      && !Due(t2.nextArachnesUpdate, now)
      && Tick(Countdown(t2, now).0, now) == t2.(currentTime := now)
  {
  }

  /** The countdown alone over a run of ticks, one countdown step per tick
      (the frames of a run that picks up no time bonus and meets no danger):
      the timers reached, and how many steps run before the time is up
      (|ticks| when it never is). Each step takes at most one second and
      never adds any, and the run stops early only when the time is up. */
  function CountdownRun(t: Timers, ticks: seq<int>): (r: (Timers, nat))
    ensures r.1 <= |ticks|
    ensures t.availableTime - |ticks| <= r.0.availableTime <= t.availableTime
    ensures r.1 < |ticks| ==> r.0.availableTime <= 0
    decreases |ticks|
  {
    if |ticks| == 0 then (t, 0)
    else
      var (t1, ok) := Countdown(t, ticks[0]);
      if !ok then (t1, 0)
      else var (t2, n) := CountdownRun(t1, ticks[1..]); (t2, n + 1)
  }

  /** Ticks spaced by more than one period apart. */
  predicate Spaced(t: Timers, ticks: seq<int>) {
    && (|ticks| > 0 ==> ticks[0] > t.nextTimeRefresh)
    && forall i :: 0 <= i < |ticks| - 1 ==> ticks[i + 1] > ticks[i] + TimerPeriod
  }

  /** With V seconds left and V countdown steps each more than a second
      after the previous, every step takes exactly one second and the V-th
      step runs out of time; the first V - 1 steps do not. Frames that pick
      up a time bonus or meet danger are not such steps. */
  lemma {:induction false} CountdownExpiresOnTime(t: Timers, ticks: seq<int>)
    requires t.availableTime == |ticks| > 0
    requires Spaced(t, ticks)
    ensures CountdownRun(t, ticks).1 == |ticks| - 1
    ensures CountdownRun(t, ticks).0.availableTime == 0
    decreases |ticks|
  {
    var (t1, ok) := Countdown(t, ticks[0]);
    if |ticks| > 1 {
      assert ok && t1.availableTime == |ticks| - 1 && t1.nextTimeRefresh == ticks[0] + TimerPeriod;
      assert Spaced(t1, ticks[1..]);
      CountdownExpiresOnTime(t1, ticks[1..]);
    }
  }

  /** Fire times are measured from the frame that fired, and the test is
      strict: a frame exactly one period later does not fire. */
  lemma ExactPeriodDoesNotFire(t: Timers, now: int)
    requires Due(t.nextTimeRefresh, now) && t.availableTime > 1
    ensures !Due(Countdown(t, now).0.nextTimeRefresh, now + TimerPeriod)
    ensures Due(Countdown(t, now).0.nextTimeRefresh, now + TimerPeriod + 1)
  {
  }

  // ---------------------------------------------------------------------
  // Outcome.

  /** The level goes on exactly when the time did not run out and the player,
      after this frame's moves, touches nothing dangerous; reaching the door
      only marks the level finished and never ends the frame; a finished
      level stays finished. */
  lemma FrameOutcome(rules: Rules, bonus: int, st: LevelState, now: int)
    ensures var (st', ok) := RenderFrame(rules, bonus, st, now);
      var (t1, inTime) := Countdown(st.timers, now);
      var b1 := Animate(rules, st.board, t1, now);
      && (ok <==> inTime && !Dangerous(b1))
      && (ok ==> (st'.isFinish <==> st.isFinish || DoorReached(b1)))
      && (st.isFinish ==> st'.isFinish)
  {
  }

  /** Picking up a bonus: the player overlapping some bonus removes exactly the
      highest-indexed one it overlaps and adds the bonus value to the time. */
  lemma BonusPickup(rules: Rules, bonus: int, st: LevelState, now: int)
    ensures var (st', ok) := RenderFrame(rules, bonus, st, now);
      var (t1, inTime) := Countdown(st.timers, now);
      var b1 := Animate(rules, st.board, t1, now);
      var k := LastHit(b1.player.rect, Rects(b1.timeBonuses));
      ok ==>
        && (k >= 0 ==> st'.board.timeBonuses == RemoveAt(b1.timeBonuses, k)
                       && st'.timers.availableTime == t1.availableTime + bonus
                       && forall j :: k < j < |b1.timeBonuses| ==> !Intersects(b1.player.rect, b1.timeBonuses[j].rect))
        && (k == -1 ==> st'.board.timeBonuses == b1.timeBonuses && st'.timers.availableTime == t1.availableTime)
  {
    var (t1, inTime) := Countdown(st.timers, now);
    var b1 := Animate(rules, st.board, t1, now);
    var k := LastHit(b1.player.rect, Rects(b1.timeBonuses));
    if k >= 0 {
      assert forall j :: k < j < |b1.timeBonuses| ==> Rects(b1.timeBonuses)[j] == b1.timeBonuses[j].rect;
    }
  }

  // ---------------------------------------------------------------------
  // Erase.

  /** The square probe with its top-left corner under the mouse. */
  function Probe(mx: int, my: int): Rect {
    Rect(mx, my, ProbeSize, ProbeSize)
  }

  /** The erasable classes, in the order the erase action tries them. */
  datatype Erasable = SpikeClass | PlantClass | ArachneClass | MonsterClass | BonusClass

  function Rank(c: Erasable): nat {
    match c
    case SpikeClass => 0
    case PlantClass => 1
    case ArachneClass => 2
    case MonsterClass => 3
    case BonusClass => 4
  }

  function Targets(b: Board, c: Erasable): seq<Rect> {
    match c
    case SpikeClass => Rects(b.spikes)
    case PlantClass => Rects(b.plants)
    case ArachneClass => Rects(b.arachnes)
    case MonsterClass => MonsterRects(b.monsters)
    case BonusClass => Rects(b.timeBonuses)
  }

  /** The board with element i of class c erased. */
  function Without(b: Board, c: Erasable, i: nat): Board
    requires i < |Targets(b, c)|
  {
    match c
    case SpikeClass => b.(spikes := RemoveAt(b.spikes, i))
    case PlantClass => b.(plants := RemoveAt(b.plants, i))
    case ArachneClass => b.(arachnes := RemoveAt(b.arachnes, i))
    case MonsterClass => b.(monsters := RemoveAt(b.monsters, i))
    case BonusClass => b.(timeBonuses := RemoveAt(b.timeBonuses, i))
  }

  /** The erase step on one collection whose rectangles are rects: the
      highest-indexed element under the probe goes, if there is one. */
  function EraseLast<T>(probe: Rect, s: seq<T>, rects: seq<Rect>): (seq<T>, bool)
    requires |rects| == |s|
  {
    var k := LastHit(probe, rects);
    if k > -1 then (RemoveAt(s, k), true) else (s, false)
  }

  /** The erase action: in the first class, in priority order, with an element
      under the probe, the last such element goes; the flag says whether
      anything went. */
  function Erase(b: Board, probe: Rect): (Board, bool) {
    var (spikes, bySpike) := EraseLast(probe, b.spikes, Rects(b.spikes));
    if bySpike then (b.(spikes := spikes), true)
    else
      var (plants, byPlant) := EraseLast(probe, b.plants, Rects(b.plants));
      if byPlant then (b.(plants := plants), true)
      else
        var (arachnes, byArachne) := EraseLast(probe, b.arachnes, Rects(b.arachnes));
        if byArachne then (b.(arachnes := arachnes), true)
        else
          var (monsters, byMonster) := EraseLast(probe, b.monsters, MonsterRects(b.monsters));
          if byMonster then (b.(monsters := monsters), true)
          else
            var (bonuses, byBonus) := EraseLast(probe, b.timeBonuses, Rects(b.timeBonuses));
            (b.(timeBonuses := bonuses), byBonus)
  }

  /** The first class with an element under the probe loses exactly its
      highest-indexed such element; classes after it are not looked at. */
  lemma EraseFirstClass(b: Board, probe: Rect, c: Erasable)
    requires AnyHit(probe, Targets(b, c))
    requires forall d :: Rank(d) < Rank(c) ==> !AnyHit(probe, Targets(b, d))
    ensures var i := LastHit(probe, Targets(b, c));
      0 <= i && Erase(b, probe) == (Without(b, c, i), true)
  {
    assert Rank(SpikeClass) == 0 && Rank(PlantClass) == 1 && Rank(ArachneClass) == 2 && Rank(MonsterClass) == 3;
  }

  /** Nothing is erased exactly when no erasable element is under the probe,
      and then the board is unchanged. */
  lemma EraseMiss(b: Board, probe: Rect)
    ensures !Erase(b, probe).1 <==> forall c :: !AnyHit(probe, Targets(b, c))
    ensures !Erase(b, probe).1 ==> Erase(b, probe).0 == b
  {
    var none := && !AnyHit(probe, Targets(b, SpikeClass)) && !AnyHit(probe, Targets(b, PlantClass))
                && !AnyHit(probe, Targets(b, ArachneClass)) && !AnyHit(probe, Targets(b, MonsterClass))
                && !AnyHit(probe, Targets(b, BonusClass));
    assert (forall c :: !AnyHit(probe, Targets(b, c))) <==> none by {
      if none {
        forall c ensures !AnyHit(probe, Targets(b, c)) {
          match c
          case SpikeClass =>
          case PlantClass =>
          case ArachneClass =>
          case MonsterClass =>
          case BonusClass =>
        }
      }
    }
  }

  /** The total number of erasable elements. */
  function Erasables(b: Board): nat {
    |b.spikes| + |b.plants| + |b.arachnes| + |b.monsters| + |b.timeBonuses|
  }

  /** At most one element goes, and the ground, the player, the door, the
      ghosts and the pencils never do. */
  lemma EraseRemovesAtMostOne(b: Board, probe: Rect)
    ensures var (b', erased) := Erase(b, probe);
      && Erasables(b') == Erasables(b) - (if erased then 1 else 0)
      && b'.ground == b.ground && b'.player == b.player && b'.door == b.door
      && b'.ghosts == b.ghosts && b'.pencils == b.pencils
  {
  }

  // ---------------------------------------------------------------------
  // Keyboard.

  datatype Key = Left | Right | Up

  /** A key press moves the player tentatively; a horizontal move into the
      ground is followed by the opposite move, a jump start into the ground
      by a one-step move back down, otherwise the jump starts. */
  function Steer(rules: Rules, p: Entity, ground: seq<Rect>, key: Key): Entity {
    match key
    case Left =>
      var q := rules.moveX(p, -1);
      if AnyHit(q.rect, ground) then rules.moveX(q, 1) else q
    case Right =>
      var q := rules.moveX(p, 1);
      if AnyHit(q.rect, ground) then rules.moveX(q, -1) else q
    case Up =>
      var q := rules.moveY(p, -2);
      if AnyHit(q.rect, ground) then rules.moveY(q, 1) else rules.jump(q)
  }

  /** When opposite horizontal moves cancel, a sideways key press never leaves
      a player who was clear of the ground inside it: either the move stands
      and is clear, or the player is back where it was. */
  lemma SidestepStaysClear(rules: Rules, p: Entity, ground: seq<Rect>, key: Key)
    requires key != Up
    requires rules.moveX(rules.moveX(p, -1), 1) == p && rules.moveX(rules.moveX(p, 1), -1) == p
    requires !AnyHit(p.rect, ground)
    ensures var p' := Steer(rules, p, ground, key);
      !AnyHit(p'.rect, ground) && (p' == p || p' == rules.moveX(p, if key == Left then -1 else 1))
  {
  }

  /** When vertical moves add up, an upward press into the ground leaves the
      player one step up, not back where it started. */
  lemma BlockedJumpNetOneUp(rules: Rules, p: Entity, ground: seq<Rect>)
    requires rules.moveY(rules.moveY(p, -2), 1) == rules.moveY(p, -1)
    requires AnyHit(rules.moveY(p, -2).rect, ground)
    ensures Steer(rules, p, ground, Up) == rules.moveY(p, -1)
  {
  }

  /** The events a level reacts to. */
  datatype Event = KeyDown(key: Key) | OtherKeyDown | MouseDown(x: int, y: int) | OtherEvent

  /** A key press steers the player; a mouse press erases under the mouse. */
  function HandleEvent(rules: Rules, b: Board, ev: Event): Board {
    match ev
    case KeyDown(key) => b.(player := Steer(rules, b.player, b.ground, key))
    case MouseDown(x, y) => Erase(b, Probe(x, y)).0
    case _ => b
  }
}
