# Flappy-bird game core, modelled in Dafny

This project models the gameplay simulation of a WeChat flappy-bird
mini-program and proves properties of it. The model covers:

- the player's bird, which falls under gravity, flaps on a tap, tilts with
  its speed and collides through a circular hitbox;
- the pipe pairs the bird flies through, and the page's stream of them:
  spawned at the right edge, moved left each frame, evicted once off
  screen, and each scoring exactly once;
- the scrolling background with its ground strip;
- the two difficulty mechanisms: the page's score-threshold table and the
  level cursor with its interpolated configuration;
- the one-shot achievements;
- the list of transient visual effects with its per-effect decay laws;
- the start-screen hint cycler;
- the page's session flags (`isPlaying`, `isPaused`, `gameOver`).

Every component whose fields the program updates in place is a Dafny
`class`. Each of its methods states the new state it leaves:

- `BirdActor.Bird`
- `Obstacle.Pipe`
- `Scenery.Background`
- `Difficulty.DifficultyManager`
- `Achievements.AchievementManager`
- `Effects.EffectManager`
- `Tutorial.TutorialManager`
- `GamePage.Game`, the page itself

Pure computations are functions, and the properties relating several
calls are lemmas.

Some things are parameters instead:

- `Math.random()` is passed in as `r` with `0 <= r < 1`.
- The screen shake's random draws are passed in as the sequences `drawsX`
  and `drawsY`.
- `Date.now()` is passed in as `now`.
- The stored high score and the stored achievements are a field of the
  object that reads them.

The effects' closures become the tagged datatype `Effects.Effect`. Each
variant's `update` becomes one case of `Effects.Step`.

Where the design description of the game and the code differ, the model
follows the code:

- The circle–rectangle test is strict (`<`), so a circle that only
  touches a pipe does not collide (`Collision.TouchingDoesNotCollide`).
- For a pipe with opening height 100 and gap 200 on a 600-high canvas,
  the code reports no collision for a radius-20 circle at height 150, and
  a collision at height 400 (`Collision.GapScenario`). The description has
  these the other way round.
- `togglePause` sets both `isPaused` and `isPlaying` from the old
  `isPaused`. Resuming therefore leaves `isPlaying` false, and `update`
  stays idle until the next tap (`GamePage.PauseTwiceNeedsTap`).
- A running `update` moves the bird, then the background and the effects,
  and only then updates the pipes, the collisions and the score.
- `checkCollisions` ends the round in the middle of a frame, but the same
  frame's `updateScore` still runs afterwards and may still score.
- `updateDifficulty` stores the level's gap in `gameConfig.pipeGap`, but
  the `Pipe` constructor always uses a gap of 200. A later gap change
  reaches only the pipes' `gap` field, never their `bottomY`.
- The bird's wing phase is reset to 0 on reaching 2π; it does not wrap
  modulo 2π.
- The page never calls `increaseDifficulty` or the tutorial's `update`,
  and never creates an `AchievementManager`. These are modelled as
  written, alongside the page's own milestone banners
  (`GamePage.Game.CheckAchievements`).

## Model

| member | source | states |
|---|---|---|
| Collision.Clamp | utils/Bird.js:215-216 | the nearest coordinate of `[lo, hi]` lies in the interval, is `v` itself inside it, and the nearer end outside it |
| Collision.ClampIsNearest | utils/Bird.js:215-216 | along one axis the clamped coordinate is at least as near to `v` as any point of the interval |
| Collision.ClosestPointIsNearest | utils/Bird.js:213-225 | the point `checkCircleRectCollision` picks lies in the rectangle and no point of the rectangle is nearer to the centre |
| Collision.CollisionMeansOverlap | utils/Bird.js:213-225 | on a well-formed rectangle the test holds exactly when some point of the rectangle lies strictly inside the circle |
| Collision.CentreInsideCollides | utils/Bird.js:213-225 | a circle (radius at least 1) whose centre lies in the rectangle collides |
| Collision.TouchingDoesNotCollide | utils/Bird.js:224 | a circle whose nearest rectangle point is exactly one radius away does not collide |
| Collision.EdgeHitIgnoresPipe | utils/Bird.js:203-206 | reaching the ceiling or the canvas bottom is a collision whatever the pipe |
| Collision.GapScenario | utils/Bird.js:180-211 | the concrete pipe (opening 100, gap 200, canvas 600): a radius-20 circle at height 150 does not collide, at height 400 it does |
| BirdActor.ClampVelocity | utils/Bird.js:60-65 | the velocity ends in `[-8, 12]`, unchanged inside, at the crossed bound outside |
| BirdActor.ClampRotation | utils/Bird.js:80-85 | the rotation ends in `[-25, 45]`, unchanged inside, at the crossed bound outside |
| BirdActor.RotationTarget | utils/Bird.js:72-73 | the tilt target never exceeds 45 and is positive while falling |
| BirdActor.NextRotation | utils/Bird.js:70-85 | the new rotation is in `[-25, 45]` and is exactly -25 when the bird is not falling |
| BirdActor.NextWingAngle | utils/Bird.js:88-91 | the wing phase stays below 2π, stays non-negative, and is either advanced by `0.15·dt·60` or reset to 0 |
| BirdActor.Bird.constructor | utils/Bird.js:2-42 | a bird at rest at `(x, y)`, level, wing phase 0, no previous position, hitbox centred on it |
| BirdActor.Bird.Flap | utils/Bird.js:44-51 | above the minimum velocity: velocity -7, rotation -25, wing phase 0; at or below it nothing changes; position and hitbox never change |
| BirdActor.Bird.Update | utils/Bird.js:53-98 | velocity is the clamped `v + 0.4·dt·60`; `y` moves by `velocity·dt·50`; rotation and wing phase follow their laws; `previousY` is the old `y`; the hitbox sits on `(x, y)`; the ranges are kept |
| BirdActor.EdgeAlwaysCollides | utils/Bird.js:202-206 | a hitbox reaching the ceiling or the canvas bottom collides with any pipe |
| BirdActor.PipeHitMeansOverlap | utils/Bird.js:186-211 | away from the edges, `checkCollision` holds exactly when a point of the top pipe `[x, x+w]×[0, topHeight]` or of the bottom pipe `[x, x+w]×[bottomY, height]` lies strictly inside the hitbox |
| BirdActor.CentreInPipeCollides | utils/Bird.js:186-225 | a hitbox centred inside either pipe rectangle collides |
| Obstacle.TopHeightBounds | utils/Pipe.js:10-12 | on a canvas at least 400 high, the opening height is between 100 and `height - 300`, strictly below it once the canvas is taller than 400 |
| Obstacle.Pipe.constructor | utils/Pipe.js:2-36 | a pipe at the right edge, width 80, gap 200, speed 3, not passed, opening from the random draw, `bottomY = topHeight + gap`, no highlight or shake, fully opaque |
| Obstacle.Pipe.Update | utils/Pipe.js:38-48 | `x` drops by exactly the speed; highlight cleared; a positive shake becomes 0.9 of itself, so it never grows; gap, speed, `passed` and opacity unchanged |
| Obstacle.Pipe.GetBounds | utils/Pipe.js:152-184 | both body boxes start 5 left of the pipe and are 10 wider; the top body spans `[0, topHeight]`, the bottom one `[bottomY, height]`; each cap is 30 high at its pipe mouth |
| Obstacle.Pipe.BoundsCoverPipe | utils/Pipe.js:152-184 | each reported body box covers the rectangle the bird is checked against; each cap lies inside its body box when the body is at least a cap high |
| Obstacle.Pipe.AddHitEffect | utils/Pipe.js:187-190 | highlight on and shake 5; position, gap, speed, `passed` and opacity unchanged |
| Obstacle.Pipe.FadeOut | utils/Pipe.js:193-195 | opacity 0.7 and nothing else changes |
| Scenery.Scrolled | utils/Background.js:29-34 | the offset moves left by the speed, or resets to 0 once a whole width has gone by, and so stays in `(-width, 0]` |
| Scenery.Background.constructor | utils/Background.js:2-14 | canvas-sized, offset 0, speed 2, grass 20 high, ground 100 above the canvas bottom |
| Scenery.Background.Update | utils/Background.js:29-34 | the offset takes one scroll step and the speed is kept |
| Scenery.Background.GroundLine | utils/Background.js:37-40 | the ground test is the line 120 above the canvas bottom |
| Scenery.Background.GroundCollisionMonotone | utils/Background.js:37-40 | a ground hit at `y1` is a hit at every `y2 >= y1` |
| Difficulty.LevelsOrdered | utils/DifficultyManager.js:3-8 | across the level table, thresholds and speeds strictly rise while gaps and intervals strictly fall |
| Difficulty.Lerp | utils/DifficultyManager.js:47-49 | `start` at progress 0 and `end` at progress 1 |
| Difficulty.LerpBetween | utils/DifficultyManager.js:47-49 | for a progress in `[0, 1]` the value lies between `start` and `end` |
| Difficulty.PlainConfig | utils/DifficultyManager.js:39-44 | a level's gap and interval unchanged, and `2·pipeSpeed = 3·backgroundSpeed` |
| Difficulty.Decayed | utils/DifficultyManager.js:51-55 | the transition progress never goes negative, never grows, stays put at 0, and drops by exactly `dt` while it can |
| Difficulty.DifficultyManager.constructor | utils/DifficultyManager.js:2-11 | first level, no transition, configuration `(3, 200, 300, 2)` |
| Difficulty.DifficultyManager.GetCurrentLevel | utils/DifficultyManager.js:13-15 | a level of the table, the easy one exactly at cursor 0 |
| Difficulty.DifficultyManager.IncreaseLevel | utils/DifficultyManager.js:17-23 | answers true exactly when below the last level, and then the cursor moves up by one; otherwise nothing changes |
| Difficulty.DifficultyManager.GetLevelConfig | utils/DifficultyManager.js:25-45 | `2·pipeSpeed = 3·backgroundSpeed` in both branches; without a transition, or at the last level, it is the current level's plain configuration |
| Difficulty.DifficultyManager.TransitionBetweenLevels | utils/DifficultyManager.js:29-37 | part way through a transition the gap and interval lie between this level's and the next level's |
| Difficulty.DifficultyManager.UpdateTransition | utils/DifficultyManager.js:51-55 | the progress takes one `Decayed` step and the cursor stays |
| Difficulty.DifficultyManager.Reset | utils/DifficultyManager.js:57-59 | the cursor is back at 0 and the transition is untouched |
| Achievements.AfterCheck | utils/AchievementManager.js:57-73 | the same three flags, with the first flight always unlocked |
| Achievements.FlippedAmong | utils/AchievementManager.js:57-79 | exactly the listed ids whose flag the check turned on |
| Achievements.NewlyUnlockedIsFlipped | utils/AchievementManager.js:57-79 | the reported list is exactly the flags that flipped, in table order |
| Achievements.NewlyUnlockedFacts | utils/AchievementManager.js:57-79 | the reported list repeats no id and names only flags that flipped |
| Achievements.OnlyLockedToUnlocked | utils/AchievementManager.js:57-73 | an unlocked flag stays unlocked, and a flag that changes went from locked to unlocked |
| Achievements.ScoreUnlocks | utils/AchievementManager.js:65-73 | high flyer flips exactly when locked and the score is at least 10; master pilot exactly when locked and at least 50 |
| Achievements.ReportedAtMostOnce | utils/AchievementManager.js:57-79 | over any run of checks each achievement is reported at most once, only if it was locked at the start, and is unlocked at the end |
| Achievements.RunKeepsUnlocked | utils/AchievementManager.js:57-73 | further checks keep every unlocked flag unlocked |
| Achievements.Loaded | utils/AchievementManager.js:33-38 | the known ids only; each takes its stored flag when one is stored and keeps its own otherwise; unknown stored ids are ignored |
| Achievements.AchievementManager.constructor | utils/AchievementManager.js:2-28 | all three locked, then whatever storage holds is loaded |
| Achievements.AchievementManager.LoadProgress | utils/AchievementManager.js:30-43 | with something stored, the flags become `Loaded` of the old flags and the stored map; otherwise nothing changes |
| Achievements.AchievementManager.SaveProgress | utils/AchievementManager.js:45-55 | storage holds exactly the current flags |
| Achievements.AchievementManager.CheckAchievements | utils/AchievementManager.js:57-80 | the flags become `AfterCheck`, the result is the newly unlocked ids in table order, and storage is written exactly when that list is non-empty |
| Effects.StepKeepsKind | utils/EffectManager.js:80-81 | every effect keeps its kind across its `update` |
| Effects.PopupAfterClosedForm | utils/EffectManager.js:31-36 | after `n` updates a popup has risen by `2n`, faded by `0.02n` and grown by `0.03n` |
| Effects.PopupLifetime | utils/EffectManager.js:31-36 | a popup survives its `n`-th update exactly when `n < 50` |
| Effects.Ring | utils/EffectManager.js:50-58 | `count` particles, the `i`-th at angle `2πi/count` with alpha 1 and no moves yet |
| Effects.ParticleLifetime | utils/EffectManager.js:50-65 | after `n` updates a ring particle has moved `n` times with alpha `1 - 0.02n`, and survives its `n`-th update exactly when `n < 50` |
| Effects.FlashLaw | utils/EffectManager.js:105-114 | the flash lives exactly while less than 500 ms have passed since its start, is visible while alive, and from its start on never exceeds opacity 0.6 |
| Effects.BannerPhaseMonotone | utils/EffectManager.js:132-152 | the phase only moves forward (in, show, out), opacity drops only in the out phase, and the banner is alive exactly while visible |
| Effects.BannerTransitions | utils/EffectManager.js:133-146 | in→show needs opacity at least 1 and starts the timer at `now`; show→out needs more than 2000 ms on the timer |
| Effects.BannerFadeIn | utils/EffectManager.js:126-141 | a new banner fades in by 0.05 per update and is shown after exactly twenty updates |
| Effects.ShakeOffsetBounded | utils/EffectManager.js:208-215 | while the shake lasts each offset stays within its intensity |
| Effects.ShakeEnds | utils/EffectManager.js:201-206 | once its duration has passed a shake ends, inactive, with a zero offset |
| Effects.SmokeFadesSteadily | utils/EffectManager.js:248-252 | while a puff lives, after `n` updates its opacity is at most `0.8 - 0.005n` and above 0.1 |
| Effects.SmokeLifetime | utils/EffectManager.js:242-252 | a coarse bound: no smoke puff survives 140 updates (the exact lifetime, 41 updates, is not proved) |
| Effects.SmokeGrows | utils/EffectManager.js:248-249 | a puff's radius grows on every update |
| Effects.Survivors | utils/EffectManager.js:80-82 | the filtered list is no longer than the list |
| Effects.SurvivorsMembership | utils/EffectManager.js:80-82 | an effect is kept exactly when it is the updated form of an effect whose `update` returned true |
| Effects.SurvivorsNone | utils/EffectManager.js:80-82 | when every `update` returns false nothing is kept |
| Effects.EffectManager.constructor | utils/EffectManager.js:2-10 | no effects and two empty pools |
| Effects.EffectManager.GetFromPool | utils/EffectManager.js:12-15 | pops and returns the last pooled object when the pool is non-empty, returns the created one otherwise |
| Effects.EffectManager.ReturnToPool | utils/EffectManager.js:17-22 | appends to the pool only while it holds fewer than 100, so no pool exceeds 100 |
| Effects.EffectManager.Update | utils/EffectManager.js:80-82 | the list becomes `Survivors` of the old list: each effect updated once, the live ones kept in order |
| Effects.EffectManager.Clear | utils/EffectManager.js:96-103 | the list is empty and the pools are unchanged |
| Effects.EffectManager.AddScorePopup | utils/EffectManager.js:24-48 | one opaque, full-size popup appended |
| Effects.EffectManager.AddParticles | utils/EffectManager.js:50-78 | exactly the `count` particles of `Ring` appended, in order |
| Effects.EffectManager.AddLevelUpEffect | utils/EffectManager.js:105-124 | one flash of opacity 0.6 started at `now` appended |
| Effects.EffectManager.AddAchievementEffect | utils/EffectManager.js:126-191 | one invisible half-size banner, fading in, at 30% of the canvas height, appended |
| Effects.EffectManager.AddScreenShake | utils/EffectManager.js:193-227 | one active shake, started at `now` with no offset, appended |
| Effects.EffectManager.AddExplosion | utils/EffectManager.js:229-264 | twenty speed-4 particles, fifteen speed-3 particles and one smoke puff appended: 36 effects |
| Tutorial.Hints | utils/TutorialManager.js:10-26 | three hints placed top to bottom |
| Tutorial.PulseStep | utils/TutorialManager.js:37-44 | opacity stays in `[0.5, 1]`; at the floor the direction turns up, at the ceiling it turns down; in between it moves by 0.02 in the current direction |
| Tutorial.FadingClosedForm | utils/TutorialManager.js:37-44 | from full opacity, fading, the opacity drops by 0.02 a step for 24 steps |
| Tutorial.BrighteningClosedForm | utils/TutorialManager.js:37-44 | from the floor, brightening, the opacity rises by 0.02 a step for 24 steps |
| Tutorial.PulsePeriod | utils/TutorialManager.js:37-44 | the pulse takes 25 steps down and 25 up, so it repeats every 50 steps |
| Tutorial.NextStep | utils/TutorialManager.js:47-51 | the hint index stays below 3 and moves on by one (round the cycle) exactly when more than 2000 ms have passed |
| Tutorial.StepCycle | utils/TutorialManager.js:49 | three changes from any hint come back to it, and one change always moves |
| Tutorial.TutorialManager.constructor | utils/TutorialManager.js:2-31 | active, fully opaque, fading, first hint, timed from `now` |
| Tutorial.TutorialManager.Update | utils/TutorialManager.js:33-52 | inactive: nothing changes; active: one pulse step, and the next hint with the time reset exactly when the interval has passed |
| Tutorial.TutorialManager.Hide | utils/TutorialManager.js:78-80 | inactive, nothing else changes |
| Tutorial.TutorialManager.Show | utils/TutorialManager.js:82-86 | active, first hint, timed from `now`, the pulse untouched |
| GamePage.Tapped | pages/game/game.js:233-248 | after a round, the fresh flags; otherwise `isPlaying` becomes true and nothing else changes |
| GamePage.Toggled | pages/game/game.js:625-631 | ignored after a round; otherwise both `isPaused` and `isPlaying` become the negation of the old `isPaused` |
| GamePage.ApplyKeepsConsistent | pages/game/game.js:625-631 | tapping, pausing and crashing keep "paused only while playing, a finished round neither playing nor paused" |
| GamePage.AlwaysConsistent | pages/game/game.js:233-248 | every sequence of events from the start keeps the flags consistent |
| GamePage.GameOverSticky | pages/game/game.js:233-237 | a finished round stays exactly as it is until a tap |
| GamePage.PauseTwiceNeedsTap | pages/game/game.js:625-631 | pausing a running game stops it, toggling again leaves both flags false, and only a further tap brings the running flags back |
| GamePage.Find | pages/game/game.js:391 | the table entry with the name when one exists, none exactly when no entry has it |
| GamePage.LevelForScoreMonotone | pages/game/game.js:379-386 | a higher score never gives an easier level |
| GamePage.LevelForScoreMatchesTable | pages/game/game.js:379-386 | the level picked is the last whose threshold in the level table the score reaches |
| GamePage.DifficultiesMatchLevels | pages/game/game.js:68-73 | the page's table has every level, with the level table's speed and gap |
| GamePage.RaisedSpeed | pages/game/game.js:822-825 | the speed never exceeds 2.5, never drops, and rises by exactly 0.1 below the cap |
| GamePage.NarrowedGap | pages/game/game.js:828-831 | the gap never goes below 150, never grows, and narrows by exactly 5 above the floor |
| GamePage.IncreasesFromStart | pages/game/game.js:820-851 | from speed 1, `n` increases give `1 + n/10` and the label `n` up to `n = 15`; from then on the speed stays 2.5 |
| GamePage.MilestoneBanners | pages/game/game.js:866-882 | at most one banner per milestone, none when the score is no milestone |
| GamePage.MilestoneBannerScores | pages/game/game.js:866-873 | exactly the scores 10, 20 and 50 bring a banner, and one each |
| GamePage.SpawnSpeed | pages/game/game.js:285-292 | a new pipe's speed is at least three times the game speed, exactly that only at score 0 |
| GamePage.Visible | pages/game/game.js:299-306 | keeps exactly the pipes whose right edge is right of 0, no more of them, valid pipes staying valid |
| GamePage.VisibleDistinct | pages/game/game.js:299-306 | the filter never lists a pipe twice when the input did not |
| GamePage.VisibleAppend | pages/game/game.js:299-306 | the filter keeps relative order: it distributes over concatenation |
| GamePage.ScoreCount | pages/game/game.js:340-341 | no more points than pipes |
| GamePage.Marked | pages/game/game.js:341-342 | a pipe ends passed exactly when it was passed or its right edge is left of the bird |
| GamePage.MarkPassed | pages/game/game.js:340-342 | every pipe marked in place, the list length kept |
| GamePage.NoneScores | pages/game/game.js:340-341 | no point is scored exactly when no pipe scores |
| GamePage.ScoresOnce | pages/game/game.js:340-342 | right after marking nothing scores again: each pipe scores at most once |
| GamePage.MarkPassedMonotone | pages/game/game.js:340-342 | marking only turns `passed` on, and marking twice is marking once |
| GamePage.ScoreCountAppend | pages/game/game.js:340-373 | points add up over the pipes |
| GamePage.SetPipeSpeeds | pages/game/game.js:403-405 | every listed pipe gets the speed |
| GamePage.LevelChange | pages/game/game.js:377-392 | a switch happens exactly when the label differs from the score's level, and then brings that level's speed and gap |
| GamePage.PointsScore | pages/game/game.js:343-363 | after `n` points the score is up by `n`, the flags and the high score untouched, and the label is the score's level |
| GamePage.UnretunedPoints | pages/game/game.js:389-422 | when no point changed the level, only the score moved |
| GamePage.RetunedConfig | pages/game/game.js:389-410 | when some point changed the level, the level-up flag is on and the configuration is the table's speed and gap for the score's level |
| GamePage.RetunedIffLevelCrossed | pages/game/game.js:377-410 | with the label matching the score, points re-set the speeds exactly when the score crosses into another level |
| GamePage.AfterPointsKeeps | pages/game/game.js:345-357 | points only append: the earlier effects stay in front, and each point adds at least six (the popup and five particles) |
| GamePage.PipeHit | pages/game/game.js:325-332 | true exactly when the bird collides with some pipe |
| GamePage.Finished | pages/game/game.js:498-513 | the round is over (not playing, not paused) and the high score is the larger of the stored one and the round's score |
| GamePage.CrashEffects | pages/game/game.js:486-495 | one screen shake and the 36 explosion effects |
| GamePage.Game.constructor | pages/game/game.js:127-179 | the first `initGame`: flags cleared, score 0, the stored high score shown, new components, no pipes or effects, the first level applied |
| GamePage.Game.HandleTap | pages/game/game.js:233-248 | the flags follow `Tapped`; after a round a full restart; before the start only `isPlaying`; while playing the bird's flap |
| GamePage.Game.CreateGameObjects | pages/game/game.js:169-179 | new background, a bird at rest at `(width/3, height/2)`, no pipes, no effects, active hints |
| GamePage.Game.InitGame | pages/game/game.js:127-167 | the page as it starts a round, with the gap left as it was |
| GamePage.Game.ResetGame | pages/game/game.js:133-151 | flags and score reset, components and difficulty manager new, game speed 1 |
| GamePage.Game.ApplyStartConfig | pages/game/game.js:153-155 | the first level's configuration applied to a reset page |
| GamePage.Game.RestartGame | pages/game/game.js:553-568 | speed 1 and gap 200, then a fresh round, the stored score unchanged |
| GamePage.Game.TogglePause | pages/game/game.js:625-636 | the flags follow `Toggled` and nothing else changes |
| GamePage.Game.UpdateGameConfig | pages/game/game.js:462-466 | the game speed becomes a third of the manager's pipe speed; every pipe takes the manager's pipe speed and gap, and the background its background speed |
| GamePage.Game.UpdateGameObjects | pages/game/game.js:468-479 | background speed, and every pipe's speed and gap, set from the configuration; every `bottomY` stays `topHeight + 200` |
| GamePage.Game.SpawnPipe | pages/game/game.js:284-294 | exactly one new pipe, at the right edge at the score-raised speed, joins the end of the list exactly when due |
| GamePage.Game.UpdatePipes | pages/game/game.js:284-307 | spawn when due, every pipe moved left by its own speed, then exactly the on-screen pipes kept in order |
| GamePage.Game.AdvancePipes | pages/game/game.js:296-306 | every pipe moved by its speed with its other state kept, then filtered with `Visible` |
| GamePage.Game.CheckAchievements | pages/game/game.js:864-883 | the banners of `MilestoneBanners` for the current score appended |
| GamePage.Game.UpdateDifficulty | pages/game/game.js:377-423 | with no level change nothing changes; otherwise the label and flag, the configuration, every pipe at three times and the background at twice the level speed, and a flash |
| GamePage.Game.UpdateScore | pages/game/game.js:339-374 | every scoring pipe is marked; the score and level follow `Points` over exactly that many points; the effects follow `AfterPoints` |
| GamePage.Game.ScoreLoop | pages/game/game.js:340-373 | after the loop all pipes are marked, and the points taken are the pipes that scored |
| GamePage.Game.ScoreAt | pages/game/game.js:341-372 | one pipe: marked when it scores, and one more point taken exactly then |
| GamePage.Game.MarkAt | pages/game/game.js:341-342 | the pipe at `i` is marked, and reports whether it scored |
| GamePage.Game.TakePoint | pages/game/game.js:343-366 | the pace and effects take exactly one more point |
| GamePage.Game.ScorePoint | pages/game/game.js:343-366 | one point: `Point` on the pace and `PointEffects` appended |
| GamePage.Game.Reward | pages/game/game.js:345-360 | the popup 30 above the bird and five particles appended, the score up by one |
| GamePage.Game.ApplyLevel | pages/game/game.js:393-415 | label and flag, configuration, pipe and background speeds of the level, and a flash |
| GamePage.Game.IncreaseDifficulty | pages/game/game.js:820-862 | speed raised (cap 2.5) and gap narrowed (floor 150), pipes and background at the new speed, the grade label with the flag, and a flash |
| GamePage.Game.GameOver | pages/game/game.js:481-551 | the round finished with the better high score, which is stored; game speed 1; the shake and explosion appended |
| GamePage.Game.CheckCollisions | pages/game/game.js:309-337 | nothing after a round or without a crash; otherwise exactly `GameOver` |
| GamePage.Game.Update | pages/game/game.js:250-282 | a no-op unless running; otherwise the bird ends within half its height of the edges, the flags stay or end the round, and the score never drops |
| GamePage.Game.MoveObjects | pages/game/game.js:255-262 | the bird's `y` is clamped to `[height/2, canvas height - height/2]` |
| GamePage.Game.PlayTick | pages/game/game.js:264-271 | the flags stay or end the round, and the score never drops |
| GamePage.Game.PipesStep | pages/game/game.js:264 | every listed pipe was there before or is new |
| GamePage.Game.CollisionStep | pages/game/game.js:265 | the flags stay or end the round, and the score is kept |
| GamePage.Game.ScoreStep | pages/game/game.js:266 | the flags stay and the score does not drop |
| GamePage.MovePipes | pages/game/game.js:297 | every pipe moved left by its own speed, highlight off, shake not grown, the rest kept |
| GamePage.KeepVisible | pages/game/game.js:299-306 | the loop builds exactly `Visible` of the list |

## Left out

- Drawing: every `draw`, `drawAt`, `drawPipe`, `drawPipeTexture`, `drawDifficultyLevel` and `render`. These are canvas calls only.
- Audio: `utils/SoundManager.js`, `initSounds` and `playSound`. These are audio I/O.
- `utils/Animation.js` and `pages/game/game-core.js` are not part of this model. The first is used only by dead page code; the second only re-exports the classes.
- Host plumbing: `wx` storage errors (`try`/`catch`), vibration, toasts and modals; `onLoad`, `initCanvas`, `getSystemInfo`, `startGame`, `selectDifficulty`, `backToStart`, `onShow`, `onHide` and `onUnload`; `startGameLoop` and `stopGameLoop`; `calculateFPS`; `handleError`. These are I/O and scheduling. The frame-time clamp compares seconds with milliseconds, so it bounds nothing.
- `checkLevelUp` and `updateGameState` are never called by the page.
- The dead page methods `addScoreEffect`, `updateEffects` and `addScreenShake` are left out. They use an undefined `data.effects`.
- The 3-second `setTimeout` that lowers `showLevelUp` is left out. A timer callback is scheduling.
- The `gameConfig.visualEffects` and `audio` switches are modelled as their constant values: popups, particles and shake are on.
- The page's guards for a missing bird, background, effect manager or hitbox are not modelled. In the model these components always exist.
- Real numbers replace IEEE-754 doubles, so rounding is not modelled.
- `Math.cos` and `Math.sin` are not modelled. A particle is kept as its origin, its angle and its number of moves rather than as coordinates.
- Random jitter is not modelled beyond the shake offset's bound: the shake's draws are parameters, and the pipe's shake only decays.
- Achievement entries are their ids. Titles, descriptions and icons are not modelled.
- Stored values are typed: a stored flag is a boolean, a stored high score an integer, and a falsy stored map is `None`.
- GamePage.Game.InitGame: the four `setData` calls of `initGame` and `loadHighScore` become one update of the `data` record. The page's first `initGame` is the `Game` constructor.
- Effects.Step: a shake with zero duration ends at once. The source would divide by zero only if the clock went backwards.
- GamePage.Game.Update: its contract states the flags, the bird's bounds and the score. It does not repeat the new state of the pipes, the effects and the score. `UpdatePipes`, `CheckCollisions`, `UpdateScore` and `Effects.EffectManager.Update` state those for their calls.
- GamePage.Game.MoveObjects: states only the bird's clamp. The bird's physics is `BirdActor.Bird.Update` and the scenery's scroll is `Scenery.Background.Update`.
- GamePage.Game.PlayTick: states only validity, the flags and the score. It inherits the rest from the methods it calls.
- GamePage.Game.PipesStep: states only validity and where the listed pipes come from. `UpdatePipes` states the rest.
- GamePage.Game.CollisionStep: states only validity, the flags and the score. `CheckCollisions` states the rest.
- GamePage.Game.ScoreStep: states only the flags and the score. `UpdateScore` states the rest.
- GamePage.Game.UpdatePipes: does not restate a moved pipe's highlight and shake. `GamePage.MovePipes` states them.
- GamePage.Game.UpdateScore: requires the pipe list to have no repeats. The page keeps this invariant, so every call from `update` meets it.
- Collision.CentreInsideCollides: proved for radii of at least 1 only, not for every positive radius. The bird's hitbox radius is 16, so every use in the game is covered. Below 1 the solver does not combine `0 < r·r` with the distance products.
- Effects.SmokeLifetime: a coarse bound. A puff actually dies at its 41st update, since 0.8·0.95⁴⁰ > 0.1 ≥ 0.8·0.95⁴¹. Only "fewer than 140" is proved.
- GamePage.Game.RestartGame: runs `initGame` at once. The source passes it as the callback of `setData` (pages/game/game.js:558-567), which the host runs after the view updates, so an event landing between the two is not modelled.
