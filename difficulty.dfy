/** The level table and the level cursor with its interpolated
    configuration (`utils/DifficultyManager.js`). */
module Difficulty {
  import opened Common

  datatype LevelName = Easy | Normal | Hard | Expert

  datatype Level = Level(speed: real, gap: real, interval: real, name: LevelName, scoreThreshold: nat)

  /** The four levels, easiest first. */
  const Levels: seq<Level> := [
    Level(1.0, 200.0, 300.0, Easy, 0),
    Level(1.3, 180.0, 280.0, Normal, 10),
    Level(1.6, 160.0, 260.0, Hard, 25),
    Level(2.0, 150.0, 240.0, Expert, 50)
  ]

  /** Each level is strictly harder than the one before: a higher score
      threshold and speed, a narrower gap and a shorter spawn interval. */
  predicate Ordered(table: seq<Level>) {
    forall i, j :: 0 <= i < j < |table| ==>
      table[i].scoreThreshold < table[j].scoreThreshold
      && table[i].speed < table[j].speed
      && table[i].gap > table[j].gap
      && table[i].interval > table[j].interval
  }

  lemma {:induction false} LevelsOrdered()
    ensures Ordered(Levels)
  {
    forall i, j | 0 <= i < j < |Levels|
      ensures Levels[i].scoreThreshold < Levels[j].scoreThreshold
      ensures Levels[i].speed < Levels[j].speed
      ensures Levels[i].gap > Levels[j].gap
      ensures Levels[i].interval > Levels[j].interval
    {
      assert i == 0 || i == 1 || i == 2;
    }
  }

  /** The settings `getLevelConfig` hands to the game. */
  datatype LevelConfig = LevelConfig(pipeSpeed: real, pipeGap: real, pipeInterval: real, backgroundSpeed: real)

  /** A fraction `t` of a span `d`: between 0 and `d` whatever the sign of `d`. */
  lemma ScaledSpan(t: real, d: real)
    requires 0.0 <= t <= 1.0
    ensures d >= 0.0 ==> 0.0 <= t * d <= d
    ensures d <= 0.0 ==> d <= t * d <= 0.0
  {
  }

  /** `lerp`: from `start` at 0 to `end` at 1, and in between for a progress
      in `[0, 1]`. */
  function Lerp(start: real, end: real, progress: real): (v: real)
    ensures progress == 0.0 ==> v == start
    ensures progress == 1.0 ==> v == end
  {
    start + (end - start) * progress
  }

  lemma LerpBetween(start: real, end: real, progress: real)
    requires 0.0 <= progress <= 1.0
    ensures start <= end ==> start <= Lerp(start, end, progress) <= end
    ensures end <= start ==> end <= Lerp(start, end, progress) <= start
  {
    var d := end - start;
    ScaledSpan(progress, d);
    assert Lerp(start, end, progress) == start + progress * d;
  }

  /** Pipes move at three times the level speed and the ground at twice it. */
  function PlainConfig(level: Level): (c: LevelConfig)
    ensures c.pipeGap == level.gap && c.pipeInterval == level.interval
    ensures 2.0 * c.pipeSpeed == 3.0 * c.backgroundSpeed
  {
    LevelConfig(level.speed * 3.0, level.gap, level.interval, level.speed * 2.0)
  }

  /** `updateTransition`'s step: a positive progress drops by `dt`, never
      below 0; any other progress is left alone. */
  function Decayed(progress: real, dt: real): (p: real)
    ensures progress >= 0.0 ==> p >= 0.0
    ensures dt >= 0.0 ==> p <= progress
    ensures progress <= 0.0 ==> p == progress
    ensures progress > 0.0 && dt <= progress ==> p == progress - dt
  {
    if progress > 0.0 then Max(0.0, progress - dt) else progress
  }

  class DifficultyManager {
    var currentLevel: int
    var transitionProgress: real

    predicate Valid()
      reads this
    {
      0 <= currentLevel < |Levels| && transitionProgress >= 0.0
    }

    constructor()
      ensures Valid() && currentLevel == 0 && transitionProgress == 0.0
      ensures GetLevelConfig() == LevelConfig(3.0, 200.0, 300.0, 2.0)
    {
      currentLevel := 0;
      transitionProgress := 0.0;
    }

    /** `getCurrentLevel`. */
    function GetCurrentLevel(): (level: Level)
      requires Valid()
      reads this
      ensures level in Levels
      ensures level.name == Easy <==> currentLevel == 0
    {
      Levels[currentLevel]
    }

    /** `increaseLevel`: one level up, unless already at the last one; the
        answer says whether it moved. */
    method IncreaseLevel() returns (changed: bool)
      requires Valid()
      modifies this
      ensures Valid()
      ensures changed <==> old(currentLevel) < |Levels| - 1
      ensures currentLevel == if changed then old(currentLevel) + 1 else old(currentLevel)
      ensures transitionProgress == old(transitionProgress)
    {
      if currentLevel < |Levels| - 1 {
        currentLevel := currentLevel + 1;
        return true;
      }
      return false;
    }

    /** `getLevelConfig`: the current level's settings, interpolated towards
        the next level while a transition is under way. */
    function GetLevelConfig(): (c: LevelConfig)
      requires Valid()
      reads this
      ensures 2.0 * c.pipeSpeed == 3.0 * c.backgroundSpeed
      ensures transitionProgress == 0.0 || currentLevel == |Levels| - 1 ==>
        c == PlainConfig(Levels[currentLevel])
    {
      var current := Levels[currentLevel];
      if currentLevel + 1 < |Levels| && transitionProgress > 0.0 then
        var next := Levels[currentLevel + 1];
        LevelConfig(
          Lerp(current.speed, next.speed, transitionProgress) * 3.0,
          Lerp(current.gap, next.gap, transitionProgress),
          Lerp(current.interval, next.interval, transitionProgress),
          Lerp(current.speed, next.speed, transitionProgress) * 2.0)
      else
        PlainConfig(current)
    }

    /** Part way through a transition (progress at most 1) the gap and the
        interval lie between this level's and the next level's. */
    lemma TransitionBetweenLevels()
      requires Valid() && currentLevel < |Levels| - 1 && 0.0 < transitionProgress <= 1.0
      ensures Levels[currentLevel + 1].gap <= GetLevelConfig().pipeGap <= Levels[currentLevel].gap
      ensures Levels[currentLevel + 1].interval <= GetLevelConfig().pipeInterval <= Levels[currentLevel].interval
    {
      LevelsOrdered();
      var current, next := Levels[currentLevel], Levels[currentLevel + 1];
      LerpBetween(current.gap, next.gap, transitionProgress);
      LerpBetween(current.interval, next.interval, transitionProgress);
    }

    /** `updateTransition(dt)`. */
    method UpdateTransition(dt: real)
      requires Valid()
      modifies this
      ensures Valid()
      ensures transitionProgress == Decayed(old(transitionProgress), dt)
      ensures currentLevel == old(currentLevel)
    {
      if transitionProgress > 0.0 {
        transitionProgress := Max(0.0, transitionProgress - dt);
      }
    }

    /** `reset`: back to the first level; the transition is untouched. */
    method Reset()
      requires Valid()
      modifies this
      ensures Valid() && currentLevel == 0
      ensures transitionProgress == old(transitionProgress)
    {
      currentLevel := 0;
    }
  }
}
