/** The game page (`pages/game/game.js`): the session flags, the pipe
    stream (spawn, move, evict, score once), the score-driven difficulty
    table, collisions ending the round, and the page's own milestone
    banners. */
module GamePage {
  import opened Common
  import BirdActor
  import Obstacle
  import Scenery
  import Difficulty
  import Effects
  import Tutorial

  /** `gameConfig.pipeInterval`: the horizontal room left before the next
      pipe is spawned. The page never changes it. */
  const PipeInterval: real := 300.0
  /** `gameConfig.difficultyIncrease`. */
  const SpeedIncrease: real := 0.1
  const GapDecrease: real := 5.0
  const MaxSpeed: real := 2.5
  const MinGap: real := 150.0
  /** The page's initial `gameConfig.pipeGap` and `gameSpeed`. */
  const InitialPipeGap: real := 200.0
  const InitialGameSpeed: real := 1.0
  /** The score popup appears this far above the bird. */
  const PopupLift: real := 30.0
  const ScoreParticles: nat := 5
  const ScoreParticleSpeed: real := 2.0
  const GameOverShakeIntensity: real := 5.0
  const GameOverShakeDuration: real := 200.0

  // ---------------------------------------------------------------------
  // Session flags

  /** The three flags the page keeps in `data`. */
  datatype Session = Session(isPlaying: bool, isPaused: bool, gameOver: bool)

  /** The flags after `initGame` or `restartGame`. */
  const Ready: Session := Session(false, false, false)
  /** The flags `gameOver` leaves. */
  const Ended: Session := Session(false, false, true)

  /** `update` does its work only in this state. */
  predicate Running(s: Session) {
    s.isPlaying && !s.gameOver && !s.isPaused
  }

  /** `handleTap`: after a round, a restart; before the start, play; while
      playing, a flap (which leaves the flags alone). */
  function Tapped(s: Session): (t: Session)
    ensures s.gameOver ==> t == Ready
    ensures !s.gameOver ==> t == s.(isPlaying := true)
  {
    if s.gameOver then Ready
    else if !s.isPlaying then s.(isPlaying := true)
    else s
  }

  /** `togglePause`: ignored after a round; otherwise both flags become the
      negation of the old `isPaused`. */
  function Toggled(s: Session): (t: Session)
    ensures s.gameOver ==> t == s
    ensures !s.gameOver ==> t.isPaused == !s.isPaused && t.isPlaying == t.isPaused && !t.gameOver
  {
    if s.gameOver then s
    else s.(isPaused := !s.isPaused, isPlaying := !s.isPaused)
  }

  /** The user and the game loop act on the flags through these. A crash is
      only ever noticed by a running `update`. */
  datatype Event = Tap | TogglePause | Crash

  function Apply(s: Session, e: Event): Session {
    match e
    case Tap => Tapped(s)
    case TogglePause => Toggled(s)
    case Crash => if Running(s) then Ended else s
  }

  function Replay(s: Session, events: seq<Event>): Session
    decreases |events|
  {
    if |events| == 0 then s else Apply(Replay(s, events[..|events| - 1]), events[|events| - 1])
  }

  /** What every reachable combination of flags satisfies: a pause only
      happens while playing, and a finished round is neither playing nor
      paused. */
  predicate Consistent(s: Session) {
    (s.isPaused ==> s.isPlaying) && (s.gameOver ==> !s.isPlaying && !s.isPaused)
  }

  lemma ApplyKeepsConsistent(s: Session, e: Event)
    requires Consistent(s)
    ensures Consistent(Apply(s, e))
  {
  }

  lemma {:induction false} AlwaysConsistent(events: seq<Event>)
    ensures Consistent(Replay(Ready, events))
    decreases |events|
  {
    if |events| > 0 {
      AlwaysConsistent(events[..|events| - 1]);
      ApplyKeepsConsistent(Replay(Ready, events[..|events| - 1]), events[|events| - 1]);
    }
  }

  /** A finished round stays finished until the next tap. */
  lemma {:induction false} GameOverSticky(s: Session, events: seq<Event>)
    requires s.gameOver && Tap !in events
    ensures Replay(s, events).gameOver
    ensures Replay(s, events) == s
    decreases |events|
  {
    if |events| > 0 {
      var init := events[..|events| - 1];
      assert events[|events| - 1] in events;
      assert Tap !in init by {
        forall i | 0 <= i < |init|
          ensures init[i] != Tap
        {
          assert init[i] == events[i];
        }
      }
      GameOverSticky(s, init);
    }
  }

  /** Pausing a running game stops `update`; pausing again does not resume
      it but leaves both flags false, and a further tap is needed, which
      only sets `isPlaying` and does not flap. */
  lemma PauseTwiceNeedsTap(s: Session)
    requires Running(s)
    ensures Toggled(s) == Session(true, true, false) && !Running(Toggled(s))
    ensures Toggled(Toggled(s)) == Ready && !Running(Toggled(Toggled(s)))
    ensures Tapped(Toggled(Toggled(s))) == s
  {
  }

  // ---------------------------------------------------------------------
  // The score-driven difficulty table of `updateDifficulty`

  /** The page's label for the current level: a named level set by
      `updateDifficulty`, or the numbered step `increaseDifficulty` sets. */
  datatype LevelLabel = Named(name: Difficulty.LevelName) | Graded(grade: int)

  /** An entry of the page's `difficulties` table. */
  datatype PageDifficulty = PageDifficulty(name: Difficulty.LevelName, speed: real, gap: real)

  const Difficulties: seq<PageDifficulty> := [
    PageDifficulty(Difficulty.Easy, 1.0, 200.0),
    PageDifficulty(Difficulty.Normal, 1.3, 180.0),
    PageDifficulty(Difficulty.Hard, 1.6, 160.0),
    PageDifficulty(Difficulty.Expert, 2.0, 150.0)
  ]

  /** `difficulties.find`: the first entry with the name, if any. */
  function Find(table: seq<PageDifficulty>, name: Difficulty.LevelName): (d: Option<PageDifficulty>)
    ensures d.Some? ==> d.value in table && d.value.name == name
    ensures d.None? <==> forall i :: 0 <= i < |table| ==> table[i].name != name
    decreases |table|
  {
    if |table| == 0 then None
    else if table[0].name == name then Some(table[0])
    else Find(table[1..], name)
  }

  /** The level `updateDifficulty` picks for a score. */
  function LevelForScore(score: int): Difficulty.LevelName {
    if score >= 50 then Difficulty.Expert
    else if score >= 25 then Difficulty.Hard
    else if score >= 10 then Difficulty.Normal
    else Difficulty.Easy
  }

  /** The position of a level in the level table. */
  function Rank(name: Difficulty.LevelName): (i: nat)
    ensures i < |Difficulty.Levels| && Difficulty.Levels[i].name == name
  {
    match name
    case Easy => 0
    case Normal => 1
    case Hard => 2
    case Expert => 3
  }

  /** A higher score never gives an easier level. */
  lemma LevelForScoreMonotone(a: int, b: int)
    requires a <= b
    ensures Rank(LevelForScore(a)) <= Rank(LevelForScore(b))
  {
  }

  /** The page's thresholds are the level table's: the level picked is the
      last one whose score threshold the score reaches. */
  lemma LevelForScoreMatchesTable(score: int)
    requires score >= 0
    ensures Difficulty.Levels[Rank(LevelForScore(score))].scoreThreshold <= score
    ensures forall i :: Rank(LevelForScore(score)) < i < |Difficulty.Levels| ==>
      score < Difficulty.Levels[i].scoreThreshold
  {
  }

  /** The page's table has an entry for every level, with the level
      table's speed and gap. */
  lemma DifficultiesMatchLevels(name: Difficulty.LevelName)
    ensures Find(Difficulties, name).Some?
    ensures Find(Difficulties, name).value.speed == Difficulty.Levels[Rank(name)].speed
    ensures Find(Difficulties, name).value.gap == Difficulty.Levels[Rank(name)].gap
  {
    assert Difficulties[Rank(name)].name == name;
    var d := Find(Difficulties, name).value;
    assert d == Difficulties[Rank(name)];
  }

  // ---------------------------------------------------------------------
  // `increaseDifficulty`

  /** One step of `increaseDifficulty` on the speed: up by 0.1, capped. */
  function RaisedSpeed(speed: real): (s: real)
    ensures s <= MaxSpeed
    ensures speed <= MaxSpeed ==> speed <= s
    ensures speed + SpeedIncrease <= MaxSpeed ==> s == speed + SpeedIncrease
  {
    Min(speed + SpeedIncrease, MaxSpeed)
  }

  /** One step of `increaseDifficulty` on the gap: down by 5, floored. */
  function NarrowedGap(gap: real): (g: real)
    ensures g >= MinGap
    ensures gap >= MinGap ==> g <= gap
    ensures gap - GapDecrease >= MinGap ==> g == gap - GapDecrease
  {
    Max(gap - GapDecrease, MinGap)
  }

  /** The label `increaseDifficulty` shows: the whole tenths above speed 1. */
  function Grade(speed: real): int {
    ((speed - 1.0) * 10.0).Floor
  }

  function SpeedAfter(speed: real, n: nat): real
    decreases n
  {
    if n == 0 then speed else RaisedSpeed(SpeedAfter(speed, n - 1))
  }

  /** From the initial speed, `n` increases give speed `1 + n/10` until the
      cap, and the label then reads `n`; from the 15th on, the speed stays
      at the cap. */
  lemma {:induction false} IncreasesFromStart(n: nat)
    ensures n <= 15 ==> SpeedAfter(InitialGameSpeed, n) == 1.0 + n as real * SpeedIncrease
    ensures n <= 15 ==> Grade(SpeedAfter(InitialGameSpeed, n)) == n
    ensures n >= 15 ==> SpeedAfter(InitialGameSpeed, n) == MaxSpeed
    decreases n
  {
    if n > 0 {
      IncreasesFromStart(n - 1);
    }
    if n <= 15 {
      assert (SpeedAfter(InitialGameSpeed, n) - 1.0) * 10.0 == n as real;
    }
  }

  // ---------------------------------------------------------------------
  // The page's milestone banners (`checkAchievements`)

  datatype Milestone = Milestone(score: int, text: string, icon: string)

  const Milestones: seq<Milestone> := [
    Milestone(10, "初级飞行员", "🐤"),
    Milestone(20, "熟练飞行员", "🦅"),
    Milestone(50, "飞行大师", "👑")
  ]

  /** The banners `checkAchievements` adds for a score, in table order. */
  function MilestoneBanners(table: seq<Milestone>, score: int, canvasHeight: real): (banners: seq<Effects.Effect>)
    ensures |banners| <= |table|
    ensures (forall i :: 0 <= i < |table| ==> table[i].score != score) ==> banners == []
    decreases |table|
  {
    if |table| == 0 then []
    else
      MilestoneBanners(table[..|table| - 1], score, canvasHeight)
      + (if table[|table| - 1].score == score
         then [Effects.NewBanner(canvasHeight, table[|table| - 1].text, table[|table| - 1].icon)]
         else [])
  }

  /** Exactly the scores 10, 20 and 50 bring a banner, and one only. */
  lemma MilestoneBannerScores(score: int, canvasHeight: real)
    ensures |MilestoneBanners(Milestones, score, canvasHeight)| == if score in {10, 20, 50} then 1 else 0
  {
    var t := Milestones;
    assert t[..2][..1] == t[..1];
    assert t[..3][..2] == t[..2];
    assert t[..1][..0] == [];
    assert t[..3] == t;
  }

  // ---------------------------------------------------------------------
  // The pipe stream

  predicate PipesValid(ps: seq<Obstacle.Pipe>)
    reads ps`shake
  {
    forall i :: 0 <= i < |ps| ==> ps[i].Valid()
  }

  /** Entries `i` and `j` of the list are different pipe objects. */
  predicate Apart(ps: seq<Obstacle.Pipe>, i: int, j: int)
    requires 0 <= i < |ps| && 0 <= j < |ps|
  {
    ps[i] != ps[j]
  }

  /** No pipe object appears twice in the list. */
  predicate Distinct(ps: seq<Obstacle.Pipe>) {
    forall i, j :: 0 <= i < |ps| && 0 <= j < |ps| && i != j ==> Apart(ps, i, j)
  }

  /** In a list without repeats, the pipe at `i` is no other entry. */
  lemma DistinctAt(ps: seq<Obstacle.Pipe>, i: int)
    requires Distinct(ps) && 0 <= i < |ps|
    ensures forall j :: 0 <= j < |ps| && j != i ==> ps[j] != ps[i]
  {
    forall j | 0 <= j < |ps| && j != i
      ensures ps[j] != ps[i]
    {
      assert Apart(ps, j, i);
    }
  }

  /** `updatePipes` spawns when there is no pipe or the last one has moved
      at least an interval in from the right edge. */
  predicate SpawnDue(count: nat, lastX: real, canvasWidth: real) {
    count == 0 || canvasWidth - lastX >= PipeInterval
  }

  /** A new pipe's speed: three times the game speed raised by a tenth per
      point scored. */
  function SpawnSpeed(gameSpeed: real, score: nat): (s: real)
    ensures s >= 3.0 * gameSpeed
    ensures s == 3.0 * gameSpeed <==> score == 0
  {
    3.0 * (gameSpeed + score as real * SpeedIncrease)
  }

  /** A pipe is kept while its right edge is right of the canvas's left edge. */
  predicate OnScreen(p: Obstacle.Pipe)
    reads p
  {
    p.x + p.width > 0.0
  }

  /** The filter of `updatePipes`: the pipes still on screen, in order. */
  function Visible(ps: seq<Obstacle.Pipe>): (vs: seq<Obstacle.Pipe>)
    reads ps
    ensures forall p :: p in vs ==> p in ps && OnScreen(p)
    ensures forall i :: 0 <= i < |ps| && OnScreen(ps[i]) ==> ps[i] in vs
    ensures |vs| <= |ps|
    ensures PipesValid(ps) ==> PipesValid(vs)
    decreases |ps|
  {
    if |ps| == 0 then []
    else
      var init := ps[..|ps| - 1];
      var last := ps[|ps| - 1];
      assert forall p :: p in init ==> p in ps;
      Visible(init) + (if OnScreen(last) then [last] else [])
  }

  /** The filter keeps pipes apart: a list without repeats stays so. */
  lemma {:induction false} VisibleDistinct(ps: seq<Obstacle.Pipe>)
    requires Distinct(ps)
    ensures Distinct(Visible(ps))
    decreases |ps|
  {
    if |ps| > 0 {
      var init := ps[..|ps| - 1];
      var last := ps[|ps| - 1];
      forall a, b | 0 <= a < |init| && 0 <= b < |init| && a != b
        ensures Apart(init, a, b)
      {
        assert Apart(ps, a, b);
      }
      VisibleDistinct(init);
      var vi := Visible(init);
      if !OnScreen(last) {
        assert Visible(ps) == vi;
      } else {
        var vs := vi + [last];
        assert Visible(ps) == vs;
        forall a, b | 0 <= a < |vs| && 0 <= b < |vs| && a != b
          ensures Apart(vs, a, b)
        {
          if a < |vi| && b < |vi| {
            assert Apart(vi, a, b);
          } else if a < |vi| {
            assert vs[a] in init;
            var m :| 0 <= m < |init| && init[m] == vs[a];
            assert Apart(ps, m, |ps| - 1);
          } else {
            assert vs[b] in init;
            var m :| 0 <= m < |init| && init[m] == vs[b];
            assert Apart(ps, m, |ps| - 1);
          }
        }
      }
    }
  }

  /** The filter keeps relative order: it distributes over concatenation. */
  lemma {:induction false} VisibleAppend(a: seq<Obstacle.Pipe>, b: seq<Obstacle.Pipe>)
    ensures Visible(a + b) == Visible(a) + Visible(b)
    decreases |b|
  {
    if |b| == 0 {
      assert a + b == a;
    } else {
      var b0 := b[..|b| - 1];
      assert (a + b)[..|a + b| - 1] == a + b0;
      assert (a + b)[|a + b| - 1] == b[|b| - 1];
      VisibleAppend(a, b0);
    }
  }

  /** What scoring sees of a pipe: its right edge and its `passed` flag. */
  datatype Progress = Progress(right: real, passed: bool)

  function ProgressOf(ps: seq<Obstacle.Pipe>): (pr: seq<Progress>)
    reads ps
    ensures |pr| == |ps|
    ensures forall i :: 0 <= i < |ps| ==> pr[i] == Progress(ps[i].x + ps[i].width, ps[i].passed)
  {
    if |ps| == 0 then [] else ProgressOf(ps[..|ps| - 1]) + [Progress(ps[|ps| - 1].x + ps[|ps| - 1].width, ps[|ps| - 1].passed)]
  }

  /** A pipe scores when it has not scored yet and its right edge is left of
      the bird. */
  predicate Scores(p: Progress, birdX: real) {
    !p.passed && p.right < birdX
  }

  /** The number of pipes `updateScore` marks. */
  function ScoreCount(ps: seq<Progress>, birdX: real): (n: nat)
    ensures n <= |ps|
    decreases |ps|
  {
    if |ps| == 0 then 0
    else ScoreCount(ps[..|ps| - 1], birdX) + (if Scores(ps[|ps| - 1], birdX) then 1 else 0)
  }

  /** The count over the first `n` entries, as `updateScore`'s loop
      builds it. */
  function ScoredAmong(ps: seq<Progress>, n: nat, birdX: real): nat
    requires n <= |ps|
    decreases n
  {
    if n == 0 then 0 else ScoredAmong(ps, n - 1, birdX) + (if Scores(ps[n - 1], birdX) then 1 else 0)
  }

  lemma {:induction false} ScoredAmongCount(ps: seq<Progress>, n: nat, birdX: real)
    requires n <= |ps|
    ensures ScoredAmong(ps, n, birdX) == ScoreCount(ps[..n], birdX)
    decreases n
  {
    if n > 0 {
      ScoredAmongCount(ps, n - 1, birdX);
      assert ps[..n][..n - 1] == ps[..n - 1];
    }
  }

  /** A pipe list whose entries show `pr` marked shows `MarkPassed(pr)`. */
  lemma ProgressMarked(ps: seq<Obstacle.Pipe>, pr: seq<Progress>, birdX: real)
    requires |pr| == |ps|
    requires forall j :: 0 <= j < |ps| ==> Progress(ps[j].x + ps[j].width, ps[j].passed) == Marked(pr[j], birdX)
    ensures ProgressOf(ps) == MarkPassed(pr, birdX)
  {
  }

  /** `updateScore`'s marks: every scoring pipe becomes passed. */
  function Marked(p: Progress, birdX: real): (q: Progress)
    ensures q.right == p.right
    ensures q.passed <==> p.passed || p.right < birdX
  {
    if Scores(p, birdX) then p.(passed := true) else p
  }

  function MarkPassed(ps: seq<Progress>, birdX: real): (qs: seq<Progress>)
    ensures |qs| == |ps|
    ensures forall i :: 0 <= i < |ps| ==> qs[i] == Marked(ps[i], birdX)
  {
    if |ps| == 0 then [] else MarkPassed(ps[..|ps| - 1], birdX) + [Marked(ps[|ps| - 1], birdX)]
  }

  /** No pipe is marked exactly when none of them scores. */
  lemma {:induction false} NoneScores(ps: seq<Progress>, birdX: real)
    ensures ScoreCount(ps, birdX) == 0 <==> forall i :: 0 <= i < |ps| ==> !Scores(ps[i], birdX)
    decreases |ps|
  {
    if |ps| > 0 {
      var init := ps[..|ps| - 1];
      NoneScores(init, birdX);
      assert forall i :: 0 <= i < |init| ==> init[i] == ps[i];
    }
  }

  /** A pipe scores at most once: right after marking, nothing scores. */
  lemma ScoresOnce(ps: seq<Progress>, birdX: real)
    ensures ScoreCount(MarkPassed(ps, birdX), birdX) == 0
  {
    NoneScores(MarkPassed(ps, birdX), birdX);
  }

  /** Marking only turns flags on, and marking twice is marking once. */
  lemma MarkPassedMonotone(ps: seq<Progress>, birdX: real)
    ensures forall i :: 0 <= i < |ps| && ps[i].passed ==> MarkPassed(ps, birdX)[i].passed
    ensures MarkPassed(MarkPassed(ps, birdX), birdX) == MarkPassed(ps, birdX)
  {
  }

  /** Scores add up over the pipes. */
  lemma {:induction false} ScoreCountAppend(a: seq<Progress>, b: seq<Progress>, birdX: real)
    ensures ScoreCount(a + b, birdX) == ScoreCount(a, birdX) + ScoreCount(b, birdX)
    decreases |b|
  {
    if |b| == 0 {
      assert a + b == a;
    } else {
      assert (a + b)[..|a + b| - 1] == a + b[..|b| - 1];
      ScoreCountAppend(a, b[..|b| - 1], birdX);
    }
  }

  /** `forEach(pipe => pipe.speed = speed)`. */
  method SetPipeSpeeds(ps: seq<Obstacle.Pipe>, speed: real)
    modifies ps`speed
    ensures forall i :: 0 <= i < |ps| ==> ps[i].speed == speed
  {
    var i := 0;
    while i < |ps|
      invariant 0 <= i <= |ps|
      invariant forall j :: 0 <= j < i ==> ps[j].speed == speed
    {
      ps[i].speed := speed;
      i := i + 1;
    }
  }

  // ---------------------------------------------------------------------
  // What each point does (`updateScore`, `updateDifficulty`,
  // `checkAchievements`)

  /** The part of the page a point changes: its `data` (the score, the
      level label and the level-up flag) and the game configuration. */
  datatype Pace = Pace(data: PageData, config: GameConfig)

  /** What `updateDifficulty(score)` switches to from `level`: the table
      entry of the score's level when the label differs, else nothing. */
  function LevelChange(level: LevelLabel, score: int): (d: Option<PageDifficulty>)
    ensures d.Some? <==> level != Named(LevelForScore(score))
    ensures d.Some? ==>
      d.value.name == LevelForScore(score)
      && d.value.speed == Difficulty.Levels[Rank(LevelForScore(score))].speed
      && d.value.gap == Difficulty.Levels[Rank(LevelForScore(score))].gap
  {
    var name := LevelForScore(score);
    DifficultiesMatchLevels(name);
    if Named(name) != level then Find(Difficulties, name) else None
  }

  /** One point: the score goes up by one and `updateDifficulty` runs on the
      new score. */
  function Point(p: Pace): Pace {
    var s := p.data.score + 1;
    match LevelChange(p.data.currentLevel, s)
    case None => p.(data := p.data.(score := s))
    case Some(d) => Pace(p.data.(score := s, currentLevel := Named(d.name), showLevelUp := true), GameConfig(d.speed, d.gap))
  }

  /** The effects one point adds, in order: the "+1" popup above the bird,
      five gold particles, the level-up flash when the level changes, and
      the milestone banner of the new score. */
  function PointEffects(p: Pace, now: int, birdX: real, birdY: real, canvasHeight: real): seq<Effects.Effect> {
    var s := p.data.score + 1;
    [Effects.NewPopup(birdX, birdY - PopupLift, "+1")]
    + Effects.Ring(birdX, birdY, ScoreParticles, ScoreParticleSpeed)
    + (if LevelChange(p.data.currentLevel, s).Some? then [Effects.Flash(Effects.FlashAlpha, now)] else [])
    + MilestoneBanners(Milestones, s, canvasHeight)
  }

  /** The pace after `n` points from `p`. */
  function Points(p: Pace, n: nat): Pace
    decreases n, 0
  {
    if n == 0 then p else NextPoint(p, n - 1)
  }

  /** The pace after point number `k + 1`: one `Point` after the first `k`.
      (Kept apart from `Points`, in the same recursion, so that unfolding
      `Points` once does not also unfold `Point`.) */
  function NextPoint(p: Pace, k: nat): Pace
    decreases k, 1
  {
    Point(Points(p, k))
  }

  /** The effect list after `n` points starting from `effects`: each
      point appends its own effects. */
  function AfterPoints(effects: seq<Effects.Effect>, p: Pace, n: nat, now: int, birdX: real, birdY: real, canvasHeight: real): seq<Effects.Effect>
    decreases n, 0
  {
    if n == 0 then effects else NextEffects(effects, p, n - 1, now, birdX, birdY, canvasHeight)
  }

  /** The effect list after point number `k + 1`: the effects of the first
      `k` points, then those of one more (apart from `AfterPoints` for the
      same reason as `NextPoint`). */
  function NextEffects(effects: seq<Effects.Effect>, p: Pace, k: nat, now: int, birdX: real, birdY: real, canvasHeight: real): seq<Effects.Effect>
    decreases k, 1
  {
    AfterPoints(effects, p, k, now, birdX, birdY, canvasHeight) + PointEffects(Points(p, k), now, birdX, birdY, canvasHeight)
  }

  /** Whether one of `n` points changed the level, which re-sets the speed
      of every pipe and of the background. */
  predicate Retuned(p: Pace, n: nat)
    decreases n
  {
    n > 0 && (Retuned(p, n - 1) || LevelChange(Points(p, n - 1).data.currentLevel, Points(p, n - 1).data.score + 1).Some?)
  }

  /** One more point: the pace, the effect list and the re-set flag each
      take one step. */
  lemma PointsStep(effects: seq<Effects.Effect>, p: Pace, k: nat, now: int, birdX: real, birdY: real, canvasHeight: real)
    ensures Points(p, k + 1) == Point(Points(p, k))
    ensures AfterPoints(effects, p, k + 1, now, birdX, birdY, canvasHeight)
      == AfterPoints(effects, p, k, now, birdX, birdY, canvasHeight) + PointEffects(Points(p, k), now, birdX, birdY, canvasHeight)
    ensures Retuned(p, k + 1) == (Retuned(p, k) || LevelChange(Points(p, k).data.currentLevel, Points(p, k).data.score + 1).Some?)
  {
  }

  /** After `n` points the score is up by `n`, the flags and the best score
      are untouched, and (for `n > 0`) the level is the one the score calls
      for. */
  lemma {:induction false} PointsScore(p: Pace, n: nat)
    ensures Points(p, n).data.score == p.data.score + n
    ensures Points(p, n).data.Flags() == p.data.Flags() && Points(p, n).data.highScore == p.data.highScore
    ensures n > 0 ==> Points(p, n).data.currentLevel == Named(LevelForScore(p.data.score + n))
    decreases n
  {
    if n > 0 {
      PointsScore(p, n - 1);
    }
  }

  /** When no point changed the level, only the score moved. */
  lemma {:induction false} UnretunedPoints(p: Pace, n: nat)
    ensures !Retuned(p, n) ==> Points(p, n) == p.(data := p.data.(score := p.data.score + n))
    decreases n
  {
    if n > 0 {
      UnretunedPoints(p, n - 1);
    }
  }

  /** When some point changed the level, the flag is raised and the
      configuration holds the table's speed and gap for the score's
      level. */
  lemma {:induction false} RetunedConfig(p: Pace, n: nat)
    ensures Retuned(p, n) ==>
      Points(p, n).data.showLevelUp
      && Points(p, n).config == GameConfig(Difficulty.Levels[Rank(LevelForScore(p.data.score + n))].speed,
                                           Difficulty.Levels[Rank(LevelForScore(p.data.score + n))].gap)
    decreases n
  {
    if n > 0 {
      if Retuned(p, n - 1) {
        RetunedConfig(p, n - 1);
        PointsScore(p, n - 1);
      } else {
        UnretunedPoints(p, n - 1);
      }
    }
  }

  /** When the label already matches the score, as it does from the start
      of a round, a run of points re-sets the speeds exactly when the score
      crosses into another level. */
  lemma {:induction false} RetunedIffLevelCrossed(p: Pace, n: nat)
    requires p.data.currentLevel == Named(LevelForScore(p.data.score))
    ensures Retuned(p, n) <==> LevelForScore(p.data.score + n) != LevelForScore(p.data.score)
    decreases n
  {
    if n > 0 {
      RetunedIffLevelCrossed(p, n - 1);
      PointsScore(p, n - 1);
      LevelForScoreMonotone(p.data.score, p.data.score + n - 1);
      LevelForScoreMonotone(p.data.score + n - 1, p.data.score + n);
    }
  }

  /** Points only append: the earlier effects stay in front, and every
      point adds at least the popup and its five particles. */
  lemma {:induction false} AfterPointsKeeps(effects: seq<Effects.Effect>, p: Pace, n: nat, now: int, birdX: real, birdY: real, canvasHeight: real)
    ensures |AfterPoints(effects, p, n, now, birdX, birdY, canvasHeight)| >= |effects| + 6 * n
    ensures AfterPoints(effects, p, n, now, birdX, birdY, canvasHeight)[..|effects|] == effects
    decreases n
  {
    if n > 0 {
      AfterPointsKeeps(effects, p, n - 1, now, birdX, birdY, canvasHeight);
      var before := AfterPoints(effects, p, n - 1, now, birdX, birdY, canvasHeight);
      assert (before + PointEffects(Points(p, n - 1), now, birdX, birdY, canvasHeight))[..|effects|] == before[..|effects|];
    }
  }

  lemma AppendAssoc<T>(a: seq<T>, b: seq<T>, c: seq<T>, d: seq<T>)
    ensures a + b + c + d == a + (b + c + d)
  {
  }

  // ---------------------------------------------------------------------
  // Collisions

  /** `checkCollisions`' verdict: the hitbox radius reaches the ceiling or
      the grass, or the bird's `checkCollision` holds for some pipe. */
  predicate Crashes(b: BirdActor.Bird, bg: Scenery.Background, ps: seq<Obstacle.Pipe>)
    reads b, bg, ps
  {
    b.y - BirdActor.HitboxRadius <= 0.0
    || bg.CheckGroundCollision(b.y, BirdActor.HitboxRadius)
    || exists i :: 0 <= i < |ps| && b.CheckCollision(ps[i])
  }

  /** The pipe loop of `checkCollisions`, which stops at the first hit. */
  method PipeHit(b: BirdActor.Bird, ps: seq<Obstacle.Pipe>) returns (hit: bool)
    ensures hit <==> exists i :: 0 <= i < |ps| && b.CheckCollision(ps[i])
  {
    hit := false;
    var i := 0;
    while i < |ps|
      invariant 0 <= i <= |ps|
      invariant forall j :: 0 <= j < i ==> !b.CheckCollision(ps[j])
    {
      if b.CheckCollision(ps[i]) {
        hit := true;
        break;
      }
      i := i + 1;
    }
  }

  // ---------------------------------------------------------------------
  // The page

  /** The entries of the page's `data` that the game logic reads and
      writes; each `setData` is one update of this record. */
  datatype PageData = PageData(score: nat, gameOver: bool, highScore: int, isPlaying: bool,
                               isPaused: bool, currentLevel: LevelLabel, showLevelUp: bool)
  {
    function Flags(): Session {
      Session(isPlaying, isPaused, gameOver)
    }
  }

  /** `data` as `initGame` leaves it, once the high score is loaded. */
  function StartData(highScore: int): PageData {
    PageData(0, false, highScore, false, false, Named(Difficulty.Easy), false)
  }

  /** The entries of the module-level `gameConfig` that the page changes. */
  datatype GameConfig = GameConfig(gameSpeed: real, pipeGap: real)

  /** `data` as `gameOver` leaves it, with `stored` read from storage: the
      round is over, and the high score is the better of the stored one and
      the round's score. */
  function Finished(d: PageData, stored: int): (e: PageData)
    ensures e.Flags() == Ended && Consistent(e.Flags())
    ensures e.highScore >= stored && e.highScore >= d.score
    ensures e.highScore == stored || e.highScore == d.score
    ensures e.score == d.score && e.currentLevel == d.currentLevel && e.showLevelUp == d.showLevelUp
  {
    d.(gameOver := true, isPlaying := false, highScore := if stored >= d.score then stored else d.score, isPaused := false)
  }

  class Game {
    const canvas: Canvas
    var bird: BirdActor.Bird
    var background: Scenery.Background
    var pipes: seq<Obstacle.Pipe>
    var effectManager: Effects.EffectManager
    var difficultyManager: Difficulty.DifficultyManager
    var tutorialManager: Tutorial.TutorialManager
    /** The page's `data`. */
    var data: PageData
    /** The `highScore` entry of the host's storage; a missing entry reads 0. */
    var storedHighScore: int
    /** The module's `gameConfig`. */
    var gameConfig: GameConfig

    function Flags(): Session
      reads this`data
    {
      data.Flags()
    }

    /** The components `createGameObjects` makes, each valid and sized to
        the page's canvas. */
    predicate ObjectsValid()
      reads this`bird, this`background, this`effectManager, this`tutorialManager
      reads bird, effectManager`pools, tutorialManager
    {
      bird.Valid() && bird.canvas == canvas
      && background.width == canvas.width && background.height == canvas.height
      && background.grassHeight == Scenery.GrassHeight
      && background.groundY == canvas.height - Scenery.GroundHeight
      && effectManager.Valid() && effectManager.canvas == canvas
      && tutorialManager.Valid()
    }

    predicate Valid()
      reads this`bird, this`background, this`effectManager, this`tutorialManager
      reads this`difficultyManager, this`pipes, this`data
      reads bird, effectManager`pools, difficultyManager, tutorialManager, pipes`shake
    {
      ObjectsValid() && difficultyManager.Valid()
      && PipesValid(pipes) && Distinct(pipes)
      && Consistent(Flags())
    }

    /** `Valid` survives a change that keeps the components, the pipe list
        and what `Valid` reads of them, leaves the difficulty manager valid
        and the flags consistent. */
    twostate lemma ValidKept()
      requires old(Valid()) == true
      requires unchanged(this`bird, this`background, this`effectManager, this`tutorialManager)
      requires unchanged(this`difficultyManager, this`pipes)
      requires unchanged(bird, tutorialManager) && unchanged(effectManager`pools) && unchanged(pipes`shake)
      requires difficultyManager.Valid() && Consistent(Flags())
      ensures Valid()
    {
    }

    /** The component objects stay the same. */
    twostate predicate SameParts()
      reads this
    {
      bird == old(bird) && background == old(background) && effectManager == old(effectManager)
      && difficultyManager == old(difficultyManager) && tutorialManager == old(tutorialManager)
    }

    /** The page as `initGame` leaves it at time `now`: flags cleared, score
        0, the stored high score shown, no pipes and no effects, the bird at
        rest at a third of the width and half the height, the first level
        with no transition, and its configuration applied. */
    predicate Started(now: int)
      reads this, bird, background, effectManager, difficultyManager, tutorialManager, pipes
    {
      Valid() && Reset(now)
      && gameConfig.gameSpeed == InitialGameSpeed && background.speed == Scenery.InitialSpeed
    }

    /** The part of `Started` that applying the configuration leaves alone. */
    predicate Reset(now: int)
      reads this`data, this`storedHighScore, this`pipes
      reads this`bird, this`background, this`effectManager, this`difficultyManager, this`tutorialManager
      reads bird`y, bird`velocity, background`x, effectManager`effects
      reads difficultyManager`currentLevel, difficultyManager`transitionProgress
      reads tutorialManager`isActive, tutorialManager`lastStepChange
    {
      data == StartData(storedHighScore)
      && pipes == [] && effectManager.effects == []
      && bird.x == canvas.width / 3.0 && bird.y == canvas.height / 2.0 && bird.velocity == 0.0
      && difficultyManager.currentLevel == 0 && difficultyManager.transitionProgress == 0.0
      && background.x == 0.0
      && tutorialManager.isActive && tutorialManager.lastStepChange == now
    }

    /** The page's first `initGame`, with storage holding `stored`, at time
        `now`; the game configuration has its initial gap. */
    constructor(canvas0: Canvas, stored: int, now: int)
      ensures canvas == canvas0 && Started(now)
      ensures storedHighScore == stored && gameConfig.pipeGap == InitialPipeGap
    {
      var bg := new Scenery.Background(canvas0);
      var b := new BirdActor.Bird(canvas0.width / 3.0, canvas0.height / 2.0, canvas0);
      var em := new Effects.EffectManager(canvas0);
      var tm := new Tutorial.TutorialManager(canvas0, now);
      var dm := new Difficulty.DifficultyManager();
      var level := dm.GetLevelConfig();
      assert level == Difficulty.PlainConfig(Difficulty.Levels[0]);
      bg.speed := level.backgroundSpeed;
      canvas := canvas0;
      data := StartData(stored);
      background := bg;
      bird := b;
      pipes := [];
      effectManager := em;
      tutorialManager := tm;
      storedHighScore := stored;
      difficultyManager := dm;
      gameConfig := GameConfig(level.pipeSpeed / 3.0, InitialPipeGap);
    }

    /** `handleTap` at time `now`: a restart after a round, the start of
        play before it, and a flap during it. */
    method HandleTap(now: int)
      requires Valid()
      modifies this, bird
      ensures Valid()
      ensures Flags() == Tapped(old(Flags()))
      ensures old(data.gameOver) ==> Started(now) && fresh(bird) && gameConfig.pipeGap == InitialPipeGap
      ensures !old(data.gameOver) ==>
        SameParts() && bird == old(bird) && pipes == old(pipes) && gameConfig == old(gameConfig)
        && data == old(data).(isPlaying := true)
      ensures !old(data.gameOver) && old(data.isPlaying) ==>
        bird.velocity == (if old(bird.velocity) > BirdActor.MinVelocity then BirdActor.FlapPower else old(bird.velocity))
      ensures !old(data.gameOver) && !old(data.isPlaying) ==> bird.velocity == old(bird.velocity)
    {
      if data.gameOver {
        RestartGame(now);
        return;
      }
      if !data.isPlaying {
        data := data.(isPlaying := true);
        return;
      }
      bird.Flap();
    }

    /** `createGameObjects` at time `now`: a new background, a bird at a
        third of the width and half the height, no pipes, and new effect and
        hint managers. */
    method CreateGameObjects(now: int)
      modifies this`background, this`bird, this`pipes, this`effectManager, this`tutorialManager
      ensures fresh(bird) && fresh(background) && fresh(effectManager) && fresh(tutorialManager)
      ensures ObjectsValid()
      ensures bird.x == canvas.width / 3.0 && bird.y == canvas.height / 2.0 && bird.velocity == 0.0
      ensures background.speed == Scenery.InitialSpeed && background.x == 0.0
      ensures pipes == [] && effectManager.effects == []
      ensures tutorialManager.isActive && tutorialManager.lastStepChange == now
    {
      background := new Scenery.Background(canvas);
      bird := new BirdActor.Bird(canvas.width / 3.0, canvas.height / 2.0, canvas);
      pipes := [];
      effectManager := new Effects.EffectManager(canvas);
      tutorialManager := new Tutorial.TutorialManager(canvas, now);
    }

    /** `initGame` at time `now`: the flags and score reset, new
        components, the stored high score loaded, a new difficulty manager,
        and its configuration applied. */
    method InitGame(now: int)
      modifies this`data, this`difficultyManager, this`gameConfig
      modifies this`background, this`bird, this`pipes, this`effectManager, this`tutorialManager
      ensures Started(now) && gameConfig.pipeGap == old(gameConfig.pipeGap)
      ensures fresh(bird) && fresh(background) && fresh(effectManager)
      ensures fresh(difficultyManager) && fresh(tutorialManager)
    {
      ResetGame(now);
      ApplyStartConfig(now);
    }

    /** `initGame` up to `updateGameConfig`. The reset of the flags and the
        score and `loadHighScore` touch only `data` and do not depend on the
        components: one update here. */
    method ResetGame(now: int)
      modifies this`data, this`difficultyManager, this`gameConfig
      modifies this`background, this`bird, this`pipes, this`effectManager, this`tutorialManager
      ensures Valid() && Reset(now) && gameConfig == old(gameConfig).(gameSpeed := InitialGameSpeed)
      ensures background.speed == Scenery.InitialSpeed
      ensures fresh(bird) && fresh(background) && fresh(effectManager)
      ensures fresh(difficultyManager) && fresh(tutorialManager)
    {
      data := StartData(storedHighScore);
      difficultyManager := new Difficulty.DifficultyManager();
      gameConfig := gameConfig.(gameSpeed := InitialGameSpeed);
      CreateGameObjects(now);
    }

    /** `updateGameConfig` on a page just reset: the first level's
        configuration, which is the one the page starts with. */
    method ApplyStartConfig(ghost now: int)
      requires Valid() && Reset(now)
      modifies this`gameConfig, background`speed, pipes`speed, pipes`gap
      ensures Started(now) && gameConfig.pipeGap == old(gameConfig.pipeGap)
    {
      UpdateGameConfig();
    }

    /** `restartGame` at time `now`: the game configuration reset, then
        `initGame`. */
    method RestartGame(now: int)
      modifies this
      ensures Started(now)
      ensures fresh(bird) && fresh(background) && fresh(effectManager)
      ensures fresh(difficultyManager) && fresh(tutorialManager)
      ensures storedHighScore == old(storedHighScore) && gameConfig.pipeGap == InitialPipeGap
    {
      gameConfig := GameConfig(InitialGameSpeed, InitialPipeGap);
      data := data.(score := 0, gameOver := false, isPlaying := false, isPaused := false,
                    showLevelUp := false, currentLevel := Named(Difficulty.Easy));
      InitGame(now);
    }

    /** `togglePause`: the flags as `Toggled` says, nothing else. */
    method TogglePause()
      requires Valid()
      modifies this`data
      ensures Valid()
      ensures Flags() == Toggled(old(Flags()))
      ensures data == old(data).(isPlaying := Flags().isPlaying, isPaused := Flags().isPaused)
    {
      if data.gameOver {
        return;
      }
      data := data.(isPaused := !data.isPaused, isPlaying := !data.isPaused);
    }

    /** `updateGameConfig`: the difficulty manager's configuration becomes
        the game speed and is applied to the background and the pipes. */
    method UpdateGameConfig()
      requires Valid()
      modifies this`gameConfig, background`speed, pipes`speed, pipes`gap
      ensures Valid()
      ensures gameConfig == old(gameConfig).(gameSpeed := difficultyManager.GetLevelConfig().pipeSpeed / 3.0)
      ensures background.speed == difficultyManager.GetLevelConfig().backgroundSpeed
      ensures forall i :: 0 <= i < |pipes| ==>
        pipes[i].speed == difficultyManager.GetLevelConfig().pipeSpeed
        && pipes[i].gap == difficultyManager.GetLevelConfig().pipeGap
    {
      var level := difficultyManager.GetLevelConfig();
      gameConfig := gameConfig.(gameSpeed := level.pipeSpeed / 3.0);
      UpdateGameObjects(level);
    }

    /** `updateGameObjects(config)`: speeds and gaps handed to the
        background and the pipes. A pipe's `bottomY` stays where its
        constructor put it, whatever the new gap. */
    method UpdateGameObjects(level: Difficulty.LevelConfig)
      requires Valid()
      modifies background`speed, pipes`speed, pipes`gap
      ensures Valid()
      ensures background.speed == level.backgroundSpeed
      ensures forall i :: 0 <= i < |pipes| ==>
        pipes[i].speed == level.pipeSpeed && pipes[i].gap == level.pipeGap
        && pipes[i].bottomY == pipes[i].topHeight + Obstacle.InitialGap
    {
      background.speed := level.backgroundSpeed;
      var i := 0;
      while i < |pipes|
        invariant 0 <= i <= |pipes|
        invariant background.speed == level.backgroundSpeed
        invariant forall j :: 0 <= j < i ==> pipes[j].speed == level.pipeSpeed && pipes[j].gap == level.pipeGap
      {
        pipes[i].speed := level.pipeSpeed;
        pipes[i].gap := level.pipeGap;
        i := i + 1;
      }
    }

    /** The right-most pipe's `x`, which decides the next spawn. */
    function LastX(): real
      requires |pipes| > 0
      reads this, pipes
    {
      pipes[|pipes| - 1].x
    }

    /** The spawning step of `updatePipes`, with `r` as the new pipe's
        `Math.random()`: when due, a new pipe at the right edge, moving at
        the score-raised speed, joins the end of the list. `spawned` names
        it, if any. */
    method SpawnPipe(r: real) returns (ghost spawned: seq<Obstacle.Pipe>)
      requires Valid() && 0.0 <= r < 1.0
      modifies this`pipes
      ensures Valid()
      ensures |spawned| == if SpawnDue(old(|pipes|), if old(|pipes|) > 0 then old(LastX()) else 0.0, canvas.width) then 1 else 0
      ensures pipes == old(pipes) + spawned
      ensures forall p :: p in spawned ==>
        fresh(p) && p.speed == SpawnSpeed(gameConfig.gameSpeed, data.score) && p.x == canvas.width
        && p.topHeight == Obstacle.RandomTopHeight(r, canvas.height) && p.gap == Obstacle.InitialGap
        && !p.passed && !p.highlight && p.shake == 0.0
    {
      var currentSpeed := gameConfig.gameSpeed + data.score as real * SpeedIncrease;
      spawned := [];
      if |pipes| == 0 || canvas.width - pipes[|pipes| - 1].x >= PipeInterval {
        var p := new Obstacle.Pipe(canvas, r);
        p.speed := 3.0 * currentSpeed;
        pipes := pipes + [p];
        forall a, b | 0 <= a < |pipes| && 0 <= b < |pipes| && a != b
          ensures Apart(pipes, a, b)
        {
          if a < |pipes| - 1 && b < |pipes| - 1 {
            assert Apart(old(pipes), a, b);
          }
        }
        spawned := [p];
      }
    }

    /** `updatePipes` with `r` as the new pipe's `Math.random()`: spawn when
        due, move every pipe once (the frame time is not used), then keep
        those still on screen. `spawned` names the pipe it created, if any. */
    method UpdatePipes(r: real) returns (ghost spawned: seq<Obstacle.Pipe>)
      requires Valid() && 0.0 <= r < 1.0
      modifies this`pipes, pipes
      ensures Valid()
      ensures |spawned| == if SpawnDue(old(|pipes|), if old(|pipes|) > 0 then old(LastX()) else 0.0, canvas.width) then 1 else 0
      ensures forall p :: p in spawned ==>
        fresh(p) && p.speed == SpawnSpeed(gameConfig.gameSpeed, data.score) && p.x == canvas.width - p.speed
        && p.topHeight == Obstacle.RandomTopHeight(r, canvas.height) && p.gap == Obstacle.InitialGap
        && !p.passed
      ensures forall i :: 0 <= i < old(|pipes|) ==>
        old(pipes)[i].x == old(pipes[i].x) - old(pipes[i].speed) && old(pipes)[i].speed == old(pipes[i].speed)
        && old(pipes)[i].passed == old(pipes[i].passed) && old(pipes)[i].gap == old(pipes[i].gap)
      ensures pipes == Visible(old(pipes) + spawned)
      ensures forall p :: p in pipes ==> OnScreen(p)
    {
      spawned := SpawnPipe(r);
      assert forall i :: 0 <= i < old(|pipes|) ==>
        pipes[i] == old(pipes)[i] && pipes[i].x == old(pipes[i].x) && pipes[i].speed == old(pipes[i].speed)
        && pipes[i].passed == old(pipes[i].passed) && pipes[i].gap == old(pipes[i].gap);
      AdvancePipes();
    }

    /** The moving and filtering steps of `updatePipes`. */
    method AdvancePipes()
      requires PipesValid(pipes) && Distinct(pipes)
      modifies this`pipes, pipes
      ensures PipesValid(pipes) && Distinct(pipes)
      ensures forall i :: 0 <= i < old(|pipes|) ==>
        old(pipes)[i].x == old(pipes[i].x) - old(pipes[i].speed) && old(pipes)[i].speed == old(pipes[i].speed)
        && old(pipes)[i].passed == old(pipes[i].passed) && old(pipes)[i].gap == old(pipes[i].gap)
      ensures pipes == Visible(old(pipes))
    {
      var all := pipes;
      MovePipes(all);
      VisibleDistinct(all);
      pipes := KeepVisible(all);
    }

    /** The page's `data` and the game configuration. */
    function PaceOf(): Pace
      reads this`data, this`gameConfig
    {
      Pace(data, gameConfig)
    }

    /** `checkAchievements`: a banner for each milestone the current score
        equals (the vibration is not modelled). */
    method CheckAchievements()
      requires effectManager.canvas == canvas
      modifies effectManager`effects
      ensures effectManager.effects == old(effectManager.effects) + MilestoneBanners(Milestones, data.score, canvas.height)
    {
      var i := 0;
      while i < |Milestones|
        invariant 0 <= i <= |Milestones|
        invariant effectManager.effects == old(effectManager.effects) + MilestoneBanners(Milestones[..i], data.score, canvas.height)
      {
        if data.score == Milestones[i].score {
          effectManager.AddAchievementEffect(Milestones[i].text, Milestones[i].icon);
        }
        assert Milestones[..i + 1][..i] == Milestones[..i];
        i := i + 1;
      }
      assert Milestones[..i] == Milestones;
    }

    /** `updateDifficulty(newScore)` at time `now`: when the score's level
        differs from the label, the label, the flag, the configuration and
        every speed take that level's entry, and a level-up flash starts
        (the timer that lowers the flag later is not modelled). */
    method UpdateDifficulty(newScore: int, now: int)
      modifies this`data, this`gameConfig, pipes`speed, background`speed, effectManager`effects
      ensures LevelChange(old(data.currentLevel), newScore).None? ==>
        data == old(data) && gameConfig == old(gameConfig)
        && background.speed == old(background.speed) && effectManager.effects == old(effectManager.effects)
        && forall i :: 0 <= i < |pipes| ==> pipes[i].speed == old(pipes[i].speed)
      ensures LevelChange(old(data.currentLevel), newScore).Some? ==>
        var d := LevelChange(old(data.currentLevel), newScore).value;
        data == old(data).(currentLevel := Named(d.name), showLevelUp := true)
        && gameConfig == GameConfig(d.speed, d.gap)
        && background.speed == 2.0 * d.speed
        && effectManager.effects == old(effectManager.effects) + [Effects.Flash(Effects.FlashAlpha, now)]
        && forall i :: 0 <= i < |pipes| ==> pipes[i].speed == 3.0 * d.speed
    {
      var newLevel := LevelForScore(newScore);
      if Named(newLevel) != data.currentLevel {
        var difficulty := Find(Difficulties, newLevel);
        if difficulty.Some? {
          ApplyLevel(difficulty.value, now);
        }
      }
    }

    /** `updateScore` at time `now`: every pipe not yet passed whose right
        edge is left of the bird is marked passed and scores one point, in
        list order. */
    method UpdateScore(now: int)
      requires Distinct(pipes) && effectManager.canvas == canvas
      modifies this`data, this`gameConfig, pipes`speed, pipes`passed, background`speed, effectManager`effects
      ensures ProgressOf(pipes) == MarkPassed(old(ProgressOf(pipes)), bird.x)
      ensures PaceOf() == Points(old(PaceOf()), ScoreCount(old(ProgressOf(pipes)), bird.x))
      ensures effectManager.effects == AfterPoints(old(effectManager.effects), old(PaceOf()),
        ScoreCount(old(ProgressOf(pipes)), bird.x), now, bird.x, bird.y, canvas.height)
    {
      ghost var pr0 := ProgressOf(pipes);
      ghost var k := ScoreLoop(now, pr0);
      ScoredAmongCount(pr0, |pr0|, bird.x);
      assert pr0[..|pr0|] == pr0;
      ProgressMarked(pipes, pr0, bird.x);
    }

    /** The loop of `updateScore`, over the pipes whose progress was `pr0`
        when it started; `k` is the number of points it took. */
    method ScoreLoop(now: int, ghost pr0: seq<Progress>) returns (ghost k: nat)
      requires Distinct(pipes) && effectManager.canvas == canvas && pr0 == ProgressOf(pipes)
      modifies this`data, this`gameConfig, pipes`speed, pipes`passed, background`speed, effectManager`effects
      ensures MarkedUpTo(pr0, |pr0|) && k == ScoredAmong(pr0, |pr0|, bird.x)
      ensures PaceOf() == Points(old(PaceOf()), k)
      ensures effectManager.effects == AfterPoints(old(effectManager.effects), old(PaceOf()), k, now, bird.x, bird.y, canvas.height)
    {
      ghost var p0 := PaceOf();
      ghost var e0 := effectManager.effects;
      k := 0;
      var i := 0;
      while i < |pipes|
        invariant MarkedUpTo(pr0, i) && i <= |pipes|
        invariant k == ScoredAmong(pr0, i, bird.x)
        invariant PaceOf() == Points(p0, k)
        invariant effectManager.effects == AfterPoints(e0, p0, k, now, bird.x, bird.y, canvas.height)
      {
        k := ScoreAt(i, now, p0, pr0, e0, k);
        i := i + 1;
      }
    }

    /** The pipes as `updateScore`'s loop leaves them after the first `i`,
        from the progress `pr0`: those are marked, the rest untouched. */
    ghost predicate MarkedUpTo(pr0: seq<Progress>, i: nat)
      reads this`pipes, this`bird, pipes`x, pipes`passed
    {
      |pr0| == |pipes|
      && forall j :: 0 <= j < |pipes| ==>
        Progress(pipes[j].x + pipes[j].width, pipes[j].passed) == if j < i then Marked(pr0[j], bird.x) else pr0[j]
    }

    /** One turn of `updateScore`'s loop, for the pipe at `i`, after `k`
        points from the pace `p0` and the effect list `e0`: when the pipe
        scores, it is marked and one more point is taken; `n` counts the
        points afterwards. */
    method ScoreAt(i: nat, now: int, ghost p0: Pace, ghost pr0: seq<Progress>, ghost e0: seq<Effects.Effect>, ghost k: nat)
      returns (ghost n: nat)
      requires i < |pipes| && Distinct(pipes) && effectManager.canvas == canvas
      requires MarkedUpTo(pr0, i) && k == ScoredAmong(pr0, i, bird.x)
      requires PaceOf() == Points(p0, k)
      requires effectManager.effects == AfterPoints(e0, p0, k, now, bird.x, bird.y, canvas.height)
      modifies this`data, this`gameConfig, pipes`speed, pipes`passed, background`speed, effectManager`effects
      ensures MarkedUpTo(pr0, i + 1) && n == ScoredAmong(pr0, i + 1, bird.x)
      ensures PaceOf() == Points(p0, n)
      ensures effectManager.effects == AfterPoints(e0, p0, n, now, bird.x, bird.y, canvas.height)
    {
      var scored;
      scored, n := MarkAt(pr0, i, now, p0, e0, k);
      if scored {
        n := TakePoint(now, p0, e0, k, pr0, i + 1);
      }
    }

    /** One more point, taken after `k` from the pace `p0` and the effect
        list `e0`. */
    method TakePoint(now: int, ghost p0: Pace, ghost e0: seq<Effects.Effect>, ghost k: nat, ghost pr0: seq<Progress>, ghost i: nat)
      returns (ghost n: nat)
      requires effectManager.canvas == canvas && MarkedUpTo(pr0, i)
      requires PaceOf() == Points(p0, k)
      requires effectManager.effects == AfterPoints(e0, p0, k, now, bird.x, bird.y, canvas.height)
      modifies this`data, this`gameConfig, pipes`speed, background`speed, effectManager`effects
      ensures MarkedUpTo(pr0, i) && n == k + 1
      ensures PaceOf() == Points(p0, n)
      ensures effectManager.effects == AfterPoints(e0, p0, n, now, bird.x, bird.y, canvas.height)
    {
      n := k + 1;
      PointsStep(e0, p0, k, now, bird.x, bird.y, canvas.height);
      ScorePoint(now);
    }

    /** `pipe.passed = true` for the pipe at `i`, which scores. */
    method MarkAt(ghost pr0: seq<Progress>, i: nat, now: int, ghost p0: Pace, ghost e0: seq<Effects.Effect>, ghost k: nat)
      returns (scored: bool, ghost n: nat)
      requires i < |pipes| && Distinct(pipes) && MarkedUpTo(pr0, i) && k == ScoredAmong(pr0, i, bird.x)
      requires PaceOf() == Points(p0, k)
      requires effectManager.effects == AfterPoints(e0, p0, k, now, bird.x, bird.y, canvas.height)
      modifies pipes`passed
      ensures MarkedUpTo(pr0, i + 1)
      ensures scored == Scores(pr0[i], bird.x)
      ensures n == ScoredAmong(pr0, i + 1, bird.x) && n == if scored then k + 1 else k
      ensures PaceOf() == Points(p0, k)
      ensures effectManager.effects == AfterPoints(e0, p0, k, now, bird.x, bird.y, canvas.height)
    {
      var pipe := pipes[i];
      scored := !pipe.passed && pipe.x + pipe.width < bird.x;
      n := if scored then k + 1 else k;
      if scored {
        DistinctAt(pipes, i);
        pipe.passed := true;
      }
    }

    /** What `updateScore` does for one pipe it marks: the popup and the
        particles at the bird, the score up by one, then `updateDifficulty`
        and `checkAchievements` on the new score (the sound is not
        modelled). */
    method ScorePoint(now: int)
      requires effectManager.canvas == canvas
      modifies this`data, this`gameConfig, pipes`speed, background`speed, effectManager`effects
      ensures PaceOf() == Point(old(PaceOf()))
      ensures effectManager.effects
        == old(effectManager.effects) + PointEffects(old(PaceOf()), now, bird.x, bird.y, canvas.height)
    {
      ghost var p := PaceOf();
      ghost var effects0 := effectManager.effects;
      Reward();
      var newScore := data.score;
      ghost var rewarded := effectManager.effects;
      UpdateDifficulty(newScore, now);
      ghost var levelled := effectManager.effects;
      assert PaceOf() == Point(p);
      CheckAchievements();
      ghost var reward := [Effects.NewPopup(bird.x, bird.y - PopupLift, "+1")]
        + Effects.Ring(bird.x, bird.y, ScoreParticles, ScoreParticleSpeed);
      ghost var flash := if LevelChange(p.data.currentLevel, p.data.score + 1).Some? then [Effects.Flash(Effects.FlashAlpha, now)] else [];
      ghost var banners := MilestoneBanners(Milestones, p.data.score + 1, canvas.height);
      assert PointEffects(p, now, bird.x, bird.y, canvas.height) == reward + flash + banners;
      assert rewarded == effects0 + reward;
      assert levelled == rewarded + flash;
      assert effectManager.effects == levelled + banners;
      AppendAssoc(effects0, reward, flash, banners);
    }

    /** The first steps for a marked pipe: the popup above the bird, the
        particles around it, and the score up by one. */
    method Reward()
      modifies this`data, effectManager`effects
      ensures data == old(data).(score := old(data.score) + 1)
      ensures effectManager.effects == old(effectManager.effects)
        + [Effects.NewPopup(bird.x, bird.y - PopupLift, "+1")]
        + Effects.Ring(bird.x, bird.y, ScoreParticles, ScoreParticleSpeed)
    {
      effectManager.AddScorePopup(bird.x, bird.y - PopupLift, "+1");
      effectManager.AddParticles(bird.x, bird.y, ScoreParticles, ScoreParticleSpeed);
      data := data.(score := data.score + 1);
    }

    /** The level switch of `updateDifficulty`: label, flag, configuration,
        pipe and background speeds, and the level-up flash. */
    method ApplyLevel(d: PageDifficulty, now: int)
      modifies this`data, this`gameConfig, pipes`speed, background`speed, effectManager`effects
      ensures forall i :: 0 <= i < |pipes| ==> pipes[i].speed == 3.0 * d.speed
      ensures data == old(data).(currentLevel := Named(d.name), showLevelUp := true)
      ensures gameConfig == GameConfig(d.speed, d.gap)
      ensures background.speed == 2.0 * d.speed
      ensures effectManager.effects == old(effectManager.effects) + [Effects.Flash(Effects.FlashAlpha, now)]
    {
      data := data.(currentLevel := Named(d.name), showLevelUp := true);
      gameConfig := GameConfig(d.speed, d.gap);
      SetPipeSpeeds(pipes, 3.0 * d.speed);
      background.speed := 2.0 * d.speed;
      effectManager.AddLevelUpEffect(now);
    }

    /** `increaseDifficulty` at time `now`: the speed up by a tenth (at most
        2.5) and the gap down by 5 (at least 150), every pipe and the
        background moved to the new speed, the label set to the new grade
        with the flag raised, and a level-up flash. */
    method IncreaseDifficulty(now: int)
      modifies this`data, this`gameConfig, pipes`speed, background`speed, effectManager`effects
      ensures gameConfig == GameConfig(RaisedSpeed(old(gameConfig.gameSpeed)), NarrowedGap(old(gameConfig.pipeGap)))
      ensures forall i :: 0 <= i < |pipes| ==> pipes[i].speed == 3.0 * gameConfig.gameSpeed
      ensures background.speed == 2.0 * gameConfig.gameSpeed
      ensures data == old(data).(showLevelUp := true, currentLevel := Graded(Grade(gameConfig.gameSpeed)))
      ensures effectManager.effects == old(effectManager.effects) + [Effects.Flash(Effects.FlashAlpha, now)]
    {
      var newSpeed := RaisedSpeed(gameConfig.gameSpeed);
      var newGap := NarrowedGap(gameConfig.pipeGap);
      gameConfig := GameConfig(newSpeed, newGap);
      SetPipeSpeeds(pipes, 3.0 * newSpeed);
      background.speed := 2.0 * newSpeed;
      data := data.(showLevelUp := true, currentLevel := Graded(Grade(newSpeed)));
      effectManager.AddLevelUpEffect(now);
    }

    /** The state part of `gameOver` at time `now`: a screen shake and an
        explosion at the bird, the round finished with the better of the
        stored and the round's score as the high score, that score stored,
        and the game speed back to 1 (sounds, vibration and the final
        render are not modelled). */
    method GameOver(now: int)
      modifies this`data, this`storedHighScore, this`gameConfig, effectManager`effects
      ensures data == Finished(old(data), old(storedHighScore)) && storedHighScore == data.highScore
      ensures gameConfig == old(gameConfig).(gameSpeed := InitialGameSpeed)
      ensures effectManager.effects == old(effectManager.effects) + CrashEffects(bird.x, bird.y, now)
    {
      effectManager.AddScreenShake(GameOverShakeIntensity, GameOverShakeDuration, now);
      effectManager.AddExplosion(bird.x, bird.y);
      data := Finished(data, storedHighScore);
      storedHighScore := data.highScore;
      gameConfig := gameConfig.(gameSpeed := InitialGameSpeed);
    }

    /** `checkCollisions` at time `now`: nothing after a round; otherwise
        `gameOver` exactly when the bird crashes. */
    method CheckCollisions(now: int)
      requires Valid()
      modifies this`data, this`storedHighScore, this`gameConfig, effectManager`effects
      ensures Valid()
      ensures old(data.gameOver) || !Crashes(bird, background, pipes) ==>
        data == old(data) && storedHighScore == old(storedHighScore)
        && gameConfig == old(gameConfig) && effectManager.effects == old(effectManager.effects)
      ensures !old(data.gameOver) && Crashes(bird, background, pipes) ==>
        data == Finished(old(data), old(storedHighScore)) && storedHighScore == data.highScore
        && gameConfig == old(gameConfig).(gameSpeed := InitialGameSpeed)
        && effectManager.effects == old(effectManager.effects) + CrashEffects(bird.x, bird.y, now)
    {
      if data.gameOver {
        return;
      }
      var collision := false;
      if bird.y - BirdActor.HitboxRadius <= 0.0 {
        collision := true;
      }
      if background.CheckGroundCollision(bird.y, BirdActor.HitboxRadius) {
        collision := true;
      }
      var hit := PipeHit(bird, pipes);
      if hit {
        collision := true;
      }
      if collision && !data.gameOver {
        GameOver(now);
      }
    }

    /** `update(dt)` at time `now`, with `r` as a new pipe's
        `Math.random()` and `drawsX`, `drawsY` as the screen shake's random
        draws, one per effect: nothing unless the game runs; otherwise the
        bird falls and is kept inside the canvas, the scenery and the
        effects move, and the pipes, the collisions, the score and the
        level transition are updated in that order. */
    method Update(dt: real, now: int, r: real, drawsX: seq<real>, drawsY: seq<real>)
      requires Valid() && 0.0 <= r < 1.0 && |drawsX| == |drawsY| == |effectManager.effects|
      modifies this, bird, background, effectManager, difficultyManager, pipes
      ensures Valid() && SameParts()
      ensures !Running(old(Flags())) ==>
        unchanged(this, bird, background, effectManager, difficultyManager) && unchanged(pipes)
      ensures Running(old(Flags())) ==>
        BirdActor.Height / 2.0 <= bird.y
        && (canvas.height >= BirdActor.Height ==> bird.y <= canvas.height - BirdActor.Height / 2.0)
      ensures Flags() == old(Flags()) || Flags() == Apply(old(Flags()), Crash)
      ensures old(data.score) <= data.score
    {
      if !data.isPlaying || data.gameOver || data.isPaused {
        return;
      }
      MoveObjects(dt, now, drawsX, drawsY);
      PlayTick(dt, now, r);
    }

    /** The first steps of a running `update`: the bird's fall, clamped to
        half its height from either edge, then the scenery and the
        effects. */
    method MoveObjects(dt: real, now: int, drawsX: seq<real>, drawsY: seq<real>)
      requires Valid() && |drawsX| == |drawsY| == |effectManager.effects|
      modifies bird, background, effectManager
      ensures Valid()
      ensures BirdActor.Height / 2.0 <= bird.y
      ensures canvas.height >= BirdActor.Height ==> bird.y <= canvas.height - BirdActor.Height / 2.0
    {
      bird.Update(dt);
      bird.y := Max(BirdActor.Height / 2.0, Min(bird.y, canvas.height - BirdActor.Height / 2.0));
      background.Update();
      effectManager.Update(now, drawsX, drawsY);
    }

    /** The rest of a running `update`: `updatePipes`, `checkCollisions`,
        `updateScore`, then the difficulty manager's transition. The flags
        change only when a crash ends the round, and the score never
        drops. */
    method PlayTick(dt: real, now: int, r: real)
      requires Valid() && 0.0 <= r < 1.0
      modifies this`pipes, pipes, this`data, this`storedHighScore, this`gameConfig
      modifies background`speed, effectManager`effects, difficultyManager
      ensures Valid()
      ensures Flags() == old(Flags()) || Flags() == Ended
      ensures old(data.score) <= data.score
    {
      PipesStep(r);
      CollisionStep(now);
      label Checked:
      ScoreStep(now);
      difficultyManager.UpdateTransition(dt);
      ValidKept@Checked();
    }

    /** `updatePipes` within `update`: the page stays valid, and every pipe
        it lists afterwards was listed before or is new. */
    method PipesStep(r: real)
      requires Valid() && 0.0 <= r < 1.0
      modifies this`pipes, pipes
      ensures Valid()
      ensures forall i :: 0 <= i < |pipes| ==> pipes[i] in old(pipes) || fresh(pipes[i])
    {
      ghost var spawned := UpdatePipes(r);
      forall i | 0 <= i < |pipes|
        ensures pipes[i] in old(pipes) || fresh(pipes[i])
      {
        assert pipes[i] in old(pipes) + spawned;
      }
    }

    /** `checkCollisions` within `update`: the page stays valid, the score
        stays, and the flags either stay or end the round. */
    method CollisionStep(now: int)
      requires Valid()
      modifies this`data, this`storedHighScore, this`gameConfig, effectManager`effects
      ensures Valid()
      ensures Flags() == old(Flags()) || Flags() == Ended
      ensures data.score == old(data.score)
    {
      CheckCollisions(now);
    }

    /** `updateScore` within `update`: the flags stay and the score does
        not drop. */
    method ScoreStep(now: int)
      requires Distinct(pipes) && effectManager.canvas == canvas
      modifies this`data, this`gameConfig, pipes`speed, pipes`passed, background`speed, effectManager`effects
      ensures Flags() == old(Flags()) && old(data.score) <= data.score
    {
      ghost var p := PaceOf();
      ghost var n := ScoreCount(ProgressOf(pipes), bird.x);
      UpdateScore(now);
      PointsScore(p, n);
    }
  }

  /** The effects `gameOver` adds at the bird's position `(x, y)`: a shake
      of the canvas and an explosion. */
  function CrashEffects(x: real, y: real, now: int): (effects: seq<Effects.Effect>)
    ensures |effects| == 37
  {
    [Effects.Shake(GameOverShakeIntensity, GameOverShakeDuration, now, true, 0.0, 0.0)]
    + Effects.Ring(x, y, 20, 4.0) + Effects.Ring(x, y, 15, 3.0) + [Effects.NewSmoke(x, y)]
  }

  /** `pipes.forEach(pipe => pipe.update(dt))`. */
  method MovePipes(ps: seq<Obstacle.Pipe>)
    requires PipesValid(ps) && Distinct(ps)
    modifies ps
    ensures PipesValid(ps)
    ensures forall i :: 0 <= i < |ps| ==>
      ps[i].x == old(ps[i].x) - old(ps[i].speed) && ps[i].speed == old(ps[i].speed)
      && ps[i].passed == old(ps[i].passed) && ps[i].gap == old(ps[i].gap)
      && !ps[i].highlight && ps[i].shake <= old(ps[i].shake)
  {
    var i := 0;
    while i < |ps|
      invariant 0 <= i <= |ps| && PipesValid(ps)
      invariant forall j :: 0 <= j < i ==>
        ps[j].x == old(ps[j].x) - old(ps[j].speed) && !ps[j].highlight && ps[j].shake <= old(ps[j].shake)
      invariant forall j :: i <= j < |ps| ==> ps[j].x == old(ps[j].x) && ps[j].shake == old(ps[j].shake)
      invariant forall j :: 0 <= j < |ps| ==>
        ps[j].speed == old(ps[j].speed) && ps[j].passed == old(ps[j].passed) && ps[j].gap == old(ps[j].gap)
    {
      DistinctAt(ps, i);
      ps[i].Update();
      i := i + 1;
    }
  }

  /** The filtering loop of `updatePipes`. */
  method KeepVisible(ps: seq<Obstacle.Pipe>) returns (vs: seq<Obstacle.Pipe>)
    ensures vs == Visible(ps)
  {
    vs := [];
    var i := 0;
    while i < |ps|
      invariant 0 <= i <= |ps|
      invariant vs == Visible(ps[..i])
    {
      assert ps[..i + 1][..i] == ps[..i];
      if ps[i].x + ps[i].width > 0.0 {
        vs := vs + [ps[i]];
      }
      i := i + 1;
    }
    assert ps[..|ps|] == ps;
  }
}
