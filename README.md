# Paper Toss — a verified model of the gameplay scene and the signing patcher

Paper Toss is a small browser game built on the Phaser engine. The player throws
paper balls at a bin. The wind changes every three seconds, and a power meter swings
along a sine wave. Five baskets within sixty seconds win the round, and the end screen
returns to the intro after three seconds. The repository also ships a Python script
that patches `android/app/build.gradle` so that release APKs are signed.

This project models two parts:

- **The gameplay scene** (`GameScene` in `js/paper-toss.js`):
  - `seq_filter.dfy` (module `SeqFilter`) holds the sequence tools for the ball list: the identity filter the scene uses and the set-based filter that specifies it.
  - `toss_rules.dfy` (module `TossRules`) holds the scalar scene state as a value and the engine events as a datatype. `Step` says what each event does. It also holds the invariant and the properties of the Intro → Play → End cycle.
  - `toss_scene.dfy` (module `TossScene`) holds the scene as a class with the source's fields and one method per engine callback. Each method is proved to perform the matching `Step` and to keep the invariant, except `ThrowPaper`, which leaves the scalar state unchanged and appends a ball. Paper balls are objects whose velocities `update` changes in place. `update` also drops the off-screen balls from the list by identity.
- **The signing patcher** (`configure_signing` in `scripts/configure-android-signing.py`):
  - `signing.dfy` (module `AndroidSigning`) models the marker check, the scan loop over the lines for the three anchor indices, the exit on a missing anchor, and the three list inserts with the script's index shifts.
  - The method `ConfigureSigning` is proved equal to the specification function `Configure`. Lemmas give the meaning of the scan, the outcome cases, the layout of the inserted blocks, and that the original lines are kept. They also prove that a second run is a no-op.

Values the scene takes from outside are parameters:
- the random wind draw in [-200, 200];
- the sine reading of the power meter in [0, 100];
- the frame time;
- the cosine and sine of the throw angle;
- the bin overlap, as the `PaperInBin` event.

The code's comments speak of a 50-second round and a 5-second end screen
(js/paper-toss.js:2, 180, 428). The code uses 60 seconds (js/paper-toss.js:186) and
3000 ms (js/paper-toss.js:474), and the model follows the code.

Engine timers are modelled as handles (`Unset`, `Active`, `Removed`). The engine delivers a timer's callback only while its handle is active; this is the `Enabled` predicate.

## Model

| member | source | states |
|---|---|---|
| TossRules.JsRem | js/paper-toss.js:290 | JavaScript `%` truncates toward zero: for a non-negative operand it is the remainder in [0, n); for a negative one it lies in (-n, 0] |
| TossRules.LaunchSpeed | js/paper-toss.js:330 | a power reading in [0, 100] gives a launch speed in [400, 1200] px/s |
| TossRules.LaunchSpeedIncreasing | js/paper-toss.js:330 | more power always means a faster throw |
| TossRules.LaunchSpeedSamples | js/paper-toss.js:329-330 | power 0, 50 and 100 give 400, 800 and 1200 px/s |
| TossRules.MeterColour | js/paper-toss.js:402-408 | the meter is green exactly below 50, yellow exactly in [50, 80) and red exactly from 80 |
| TossRules.WindAngle | js/paper-toss.js:309-313 | the indicator points right (0°) exactly for a strictly positive wind, and left (180°) for zero or negative wind |
| TossRules.NextHandFrame | js/paper-toss.js:290 | the hand frame stays in [0, 30), steps by one, and wraps from 29 to 0 |
| TossRules.PoseFor | js/paper-toss.js:292-298 | the hand is forward exactly for frames 10–19, back otherwise, and never idle once animating |
| TossRules.NextFanFrame | js/paper-toss.js:219 | the blade texture stays in 1..5, steps by one, and wraps from 5 to 1 |
| TossRules.HandFramesCycle | js/paper-toss.js:287-301 | after k ticks the hand frame is (f + k) mod 30 |
| TossRules.FanFramesCycle | js/paper-toss.js:216-223 | after k ticks the blade is ((f − 1 + k) mod 5) + 1 |
| TossRules.Damped | js/paper-toss.js:414-415 | air resistance shrinks a velocity toward zero without changing its sign |
| TossRules.WindDamped | js/paper-toss.js:413-414 | wind pushes the damped horizontal velocity in its own direction, and no wind means plain damping |
| TossRules.DampingSamples | js/paper-toss.js:413-415 | ±100 px/s becomes ±98 px/s in one calm frame |
| TossRules.OffScreen | js/paper-toss.js:418 | a ball on the 1920 × 1080 canvas is never off screen, and one below y = 1200 always is |
| TossRules.StepBall | js/paper-toss.js:411-422 | a frame leaves a ball without a body unchanged. On a ball with a body it applies wind and damping, keeps its position, and destroys it exactly when it is off screen (y > 1200, x < −100 or x > 2020) |
| TossRules.Cancel | js/paper-toss.js:382-384 | removing a timer handle leaves it inactive, and a handle never created stays unset |
| TossRules.Ended | js/paper-toss.js:380-388 | endGame hands the outcome and the current score to the end screen and stops the three timers. Nothing else changes |
| TossRules.TimerTicked | js/paper-toss.js:371-378 | a countdown tick takes one second off and keeps the score. With one second or less left it ends the round as lost and stops the countdown; otherwise nothing else changes |
| TossRules.Scored | js/paper-toss.js:347-369 | a basket adds one point and keeps the time. At five points it ends the round as won and stops the countdown; otherwise nothing else changes |
| TossRules.WindChanged | js/paper-toss.js:304-314 | the wind takes the draw and the indicator points right exactly for a positive draw. Nothing else changes |
| TossRules.HandAdvanced | js/paper-toss.js:289-299 | the hand callback keeps the frame in [0, 30) and leaves the hand in a non-idle pose. Nothing else changes |
| TossRules.FanAdvanced | js/paper-toss.js:218-221 | the fan callback keeps the blade texture in 1..5. Nothing else changes |
| TossRules.FrameAdvanced | js/paper-toss.js:390-408 | a frame never moves the meter clock back, sets the power to the reading, and shows red exactly from 80. Nothing else changes |
| TossRules.StartedAsWritten | js/paper-toss.js:195-283 | create() as written puts the round in play with the three timers running and the drawn wind, but keeps the score, time, hand frame and power the previous round left |
| TossRules.Started | js/paper-toss.js:195-283 | the corrected start is in play with no points, 60 seconds, the drawn wind, hand frame 0 and no power, the constructor's values |
| TossRules.Restarted | js/paper-toss.js:474-476 | the end screen's delayed call returns to the intro. Nothing else changes |
| TossRules.Enabled | js/paper-toss.js:182-425 | in a state satisfying the invariant, the intro accepts only its hand-over and the end screen only its delayed call; every other callback arrives only in play |
| TossRules.Step | js/paper-toss.js:182-425 | only a basket or a new round changes the score, and only a countdown tick or a new round changes the time |
| TossRules.Initial | js/paper-toss.js:185-191 | the constructed scene waits in the intro with no points, 60 seconds and no timer created yet |
| TossRules.InitialInv | js/paper-toss.js:183-193 | the constructed scene satisfies the invariant and waits in the intro |
| TossRules.StartedFresh | js/paper-toss.js:195-283 | the corrected start satisfies the invariant, and starting from any state gives that same round: nothing of the previous round carries over |
| TossRules.StepKeepsInv | js/paper-toss.js:182-425 | every callback the engine can deliver keeps the invariant. The invariant bounds score, time, wind, power and frames, keeps the displays consistent, and has the timers running exactly during play. This holds for the corrected start, with endGame taking effect at once |
| TossRules.PhaseCycle | js/paper-toss.js:366-387 | phases only move Intro → Play → End → Intro. Play ends only on the last countdown tick (lost) or on the fifth basket (won) |
| TossRules.TimersSilentOutsidePlay | js/paper-toss.js:380-388 | after endGame none of the three removed timers can fire |
| TossRules.BasketScores | js/paper-toss.js:347-369 | a basket adds exactly one point and ends the round exactly when the score reaches five |
| TossRules.TimerCounts | js/paper-toss.js:371-378 | a tick takes exactly one second off and ends the round exactly when no time is left |
| TossRules.TraceKeepsInv | js/paper-toss.js:182-425 | the invariant holds along every run of deliverable events, for the corrected start, with endGame taking effect at once |
| TossRules.Reachable | js/paper-toss.js:183-193 | every state reachable from the constructor satisfies the invariant, so the score never exceeds five, for the corrected start, with endGame taking effect at once |
| TossRules.Countdown | js/paper-toss.js:371-378 | k ticks in play lower the time by k, keep the score, and end the round (lost) on exactly the last possible tick |
| TossRules.SixtiethTickEndsRound | js/paper-toss.js:186 | from a fresh start the round is still in play after 59 ticks and is lost, with the countdown stopped, on the 60th |
| TossRules.Baskets | js/paper-toss.js:347-369 | k baskets in play raise the score by k, keep the time, and win the round on exactly the fifth point |
| TossRules.FifthBasketWins | js/paper-toss.js:366-368 | from a fresh start four baskets keep the round going and the fifth wins it |
| TossRules.StaleSecondRound | js/paper-toss.js:183-193 | with create() as written, a round after a loss starts with no time left and is lost on its first tick. A round after a win starts at five points, and its first basket ends it with six |
| TossScene.Ball.Launch | js/paper-toss.js:325-337 | a new ball is alive at the given position with the given velocity |
| TossScene.Ball.Drift | js/paper-toss.js:411-422 | one ball's part of a frame changes its fields exactly as StepBall says, and reports whether the ball was destroyed |
| TossScene.GameScene.constructor | js/paper-toss.js:183-193 | the scene starts in the intro with the constructor's values and no balls, and satisfies the invariant |
| TossScene.GameScene.Create | js/paper-toss.js:195-283 | starting a round performs the corrected start step, empties the ball list and keeps the invariant |
| TossScene.GameScene.ResetSession | js/paper-toss.js:185-191 | score, time, wind, power, hand frame and meter clock return to the constructor's values, and the ball list is emptied |
| TossScene.GameScene.ChangeWind | js/paper-toss.js:304-314 | the wind takes the draw and the indicator its direction. Nothing else changes and the invariant is kept |
| TossScene.GameScene.HandAnimTick | js/paper-toss.js:289-299 | the hand timer's callback advances the frame and pose and keeps the invariant |
| TossScene.GameScene.FanBladeTick | js/paper-toss.js:218-221 | the fan timer's callback advances the blade and keeps the invariant |
| TossScene.GameScene.EndGame | js/paper-toss.js:380-388 | the timers are removed and the end screen gets the outcome and the score |
| TossScene.GameScene.UpdateTimer | js/paper-toss.js:371-378 | the countdown callback performs the tick step (a loss at zero) and keeps the invariant |
| TossScene.GameScene.OnPaperInBin | js/paper-toss.js:347-369 | a basket performs the scoring step (a win at five) and keeps the invariant. The ball loses its body, keeps its position and velocity, and stays listed |
| TossScene.GameScene.ThrowPaper | js/paper-toss.js:316-345 | a fresh ball is appended at (1400, 900) with velocity (cos, sin) × LaunchSpeed(power), between 400 and 1200 px/s. The scalar state is unchanged |
| TossScene.GameScene.UpdateMeter | js/paper-toss.js:390-408 | the meter clock advances by the frame time, and the power takes the reading with its colour band |
| TossScene.GameScene.Update | js/paper-toss.js:390-424 | a frame performs the frame step and keeps the invariant. Every listed ball changes as StepBall says. The new list is the old one, in order, without exactly the balls that were alive and off screen |
| TossScene.GameScene.ShowIntro | js/paper-toss.js:474-476 | the end screen's delayed call returns to the intro and keeps the invariant |
| TossScene.DriftPapers | js/paper-toss.js:410-423 | the forEach over the balls applies StepBall to each ball. The kept list is the input filtered by exactly the destroyed balls |
| SeqFilter.Without | js/paper-toss.js:420 | the identity filter removes the element and never lengthens the list |
| SeqFilter.Filter | js/paper-toss.js:411-423 | filtering never lengthens the list |
| SeqFilter.DistinctSnoc | js/paper-toss.js:339 | pushing a ball that is not yet listed keeps the list free of repetitions |
| SeqFilter.DistinctAt | js/paper-toss.js:411-423 | in a list without repetitions every other position holds another ball |
| SeqFilter.WithoutFilter | js/paper-toss.js:420 | the identity filter applied to a filtered list equals filtering with one more element left out |
| SeqFilter.FilterNone | js/paper-toss.js:411 | filtering out nothing changes nothing |
| SeqFilter.FilterMembers | js/paper-toss.js:420 | an element survives exactly when it was listed and is not left out |
| SeqFilter.FilterAppend | js/paper-toss.js:420 | filtering distributes over concatenation, so survivors keep their relative order |
| SeqFilter.FilterDistinct | js/paper-toss.js:420 | filtering keeps a list free of repetitions |
| SeqFilter.WithoutMembers | js/paper-toss.js:420 | after the identity filter exactly the other elements remain |
| AndroidSigning.Insert | scripts/configure-android-signing.py:51 | `list.insert` lengthens the list by one |
| AndroidSigning.RemoveAt | scripts/configure-android-signing.py:51 | deleting one element shortens the list by one |
| AndroidSigning.Contains | scripts/configure-android-signing.py:20 | the empty text occurs in every string, and a text that occurs is no longer than the string searched |
| AndroidSigning.ScanStep | scripts/configure-android-signing.py:31-37 | each anchor either stays or becomes the current line; a line holding the plugin or `buildTypes {` text takes that anchor; a release index once found is kept; a new release index needs an armed `buildTypes {` index above 0 and a `release {` line |
| AndroidSigning.Scan | scripts/configure-android-signing.py:27-37 | each anchor index is −1 or the index of a line of the file |
| AndroidSigning.Configure | scripts/configure-android-signing.py:11-86 | a patched file had no marker and gains exactly three lines; the script fails only when an anchor is missing |
| AndroidSigning.ScanUpTo | scripts/configure-android-signing.py:27-37 | each anchor index is −1 or the index of a scanned line |
| AndroidSigning.ScanLast | scripts/configure-android-signing.py:31-35 | the plugin index and the buildTypes index are each the last scanned line holding its text, or −1 when none does |
| AndroidSigning.ArmedIff | scripts/configure-android-signing.py:36 | release detection is armed at a line exactly when some line after the first, up to and including it, holds `buildTypes {` |
| AndroidSigning.ScanRelease | scripts/configure-android-signing.py:36-37 | the release index is the first `release {` line met while armed, or −1 |
| AndroidSigning.Patch | scripts/configure-android-signing.py:43-80 | the three inserts add exactly three lines |
| AndroidSigning.ConfigureSigning | scripts/configure-android-signing.py:11-86 | the script with its scan loop and in-place inserts computes Configure |
| AndroidSigning.FindAnchors | scripts/configure-android-signing.py:27-37 | the scan loop computes the three anchors Scan defines |
| AndroidSigning.RemoveInsert | scripts/configure-android-signing.py:51 | deleting at the insert position undoes an insert |
| AndroidSigning.InsertSplit | scripts/configure-android-signing.py:51 | an inserted element sits between the first i elements and the rest |
| AndroidSigning.Outcomes | scripts/configure-android-signing.py:19-41 | the file counts as already configured exactly when it holds the marker. The script fails exactly when, without the marker, the plugin line, the `buildTypes {` line or an accepted `release {` line is missing. Otherwise three lines are added |
| AndroidSigning.PatchedRestores | scripts/configure-android-signing.py:51-80 | deleting the three inserted blocks from the written lines gives back the input lines in order |
| AndroidSigning.PatchRestores | scripts/configure-android-signing.py:51-80 | the same for any three anchor indices within the file |
| AndroidSigning.UndoThree | scripts/configure-android-signing.py:51-80 | three inserts are undone by deletions at the same positions, last one first |
| AndroidSigning.PatchedLayout | scripts/configure-android-signing.py:43-80 | when plugin < buildTypes ≤ release, the keystore block follows the plugin line, the signingConfigs block precedes the buildTypes line and the reference block follows the release line. All other lines are untouched and in order |
| AndroidSigning.PatchLayout | scripts/configure-android-signing.py:51-80 | the same layout for any such anchor indices |
| AndroidSigning.InsertThree | scripts/configure-android-signing.py:53-80 | the script's index shifts place each block at the intended seam |
| AndroidSigning.InsertAppend | scripts/configure-android-signing.py:51 | inserting at the seam of two lists puts the element between them |
| AndroidSigning.ContainsLeft | scripts/configure-android-signing.py:20 | a substring of a prefix is a substring of the whole |
| AndroidSigning.ContainsRight | scripts/configure-android-signing.py:20 | a substring of a suffix is a substring of the whole |
| AndroidSigning.ContainsLine | scripts/configure-android-signing.py:20 | a line holding the marker makes the file text hold it |
| AndroidSigning.MarkerInKeystoreBlock | scripts/configure-android-signing.py:44-50 | the inserted keystore block holds the marker |
| AndroidSigning.InsertKeeps | scripts/configure-android-signing.py:70-80 | later inserts keep the blocks already inserted |
| AndroidSigning.InsertHolds | scripts/configure-android-signing.py:51 | the inserted block is in the list |
| AndroidSigning.SecondRunUnchanged | scripts/configure-android-signing.py:20-22 | running the script again on the file it wrote, however that text is split into lines, finds the marker and writes nothing (idempotence) |

## Left out

- The intro scene (`IntroScene`, js/paper-toss.js:7-177) is left out. It is asset loading and a scripted tween timeline. Only its hand-over to the gameplay scene (js/paper-toss.js:172) is modelled, as the `IntroFinished` event.
- Rendering is left out: images, texts, the meter's height, textures, tweens, the success effect, the random background and the random ball sprite. None of these feed back into the state.
- The sine of the power meter is left out and replaced by a reading in [0, 100] supplied to `Update`. Floating point is modelled as exact `real` arithmetic. The throw's cosine and sine are inputs.
- Phaser's physics is not part of this model: gravity, position integration and the bin overlap test. Balls are moved only by `StepBall`'s wind and damping; the engine's position and gravity step between frames is left out. The overlap is the `PaperInBin` event, delivered while the round is in play.
- `scene.start` is deferred to the end of the frame by the engine. The model applies the phase change at once. Callbacks queued later in the same frame are not modelled. In the source two overlaps in the same physics step can both score, taking a score of four to six; the model's invariant (score at most five) holds only because endGame takes effect at once.
- The fan timer is never stored and never removed by endGame (js/paper-toss.js:216-223). The model lets it fire exactly while the round is in play, which is when its scene is running.
- TossScene.GameScene.Update: the source's forEach runs over the array as it was at the start of the frame, while `paperBalls` is reassigned by each filter. The model runs over that original list and assigns the filtered list once at the end; the outcome is the same list. `gone`, the set of removed balls, is a ghost result used only to state the contract.
- TossScene.GameScene.OnPaperInBin: the source may be called for a ball that already lost its body. The model requires a live ball, as the overlap only fires for bodies.
- The Android patcher's file I/O is left out: the existence check, the read, the write and the console messages. `sys.exit(1)` is the `MissingSections` outcome. `str.splitlines(keepends=True)` is not modelled. The model takes the lines and tests the marker on their concatenation, which is the file text.
- AndroidSigning.PatchedLayout: states the layout only for plugin < buildTypes ≤ release, the order the script's index shifts assume. For other orders the blocks land elsewhere, as the function `Patch` computes.
- The `buildtypes_line > 0` test is modelled as written (`Armed`). A `buildTypes {` on the very first line therefore does not arm release detection.
- scripts/increment-version.js, scripts/extract-sprites.js and the tests are not part of this model.

## Findings

| source | as written | input that shows it | evidently intended | confidence | as-written member | corrected member |
|---|---|---|---|---|---|---|
| js/paper-toss.js:183-195 | score, timeRemaining, currentPower, paperBalls, handAnimFrame and powerOscillationTime are set only in the constructor, which the engine runs once. create() runs at every `scene.start('GameScene')` and resets none of them (windForce is redrawn by its call to changeWind) | lose a round on time, then wait for the intro to start the next one: it begins with 0 seconds and is lost on the first tick. After a win the next round starts at 5 points, and one basket ends it with 6 | every round starts with 0 points and 60 seconds | not executed | TossRules.StaleSecondRound | TossRules.StartedFresh |
