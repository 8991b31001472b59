# FeedIt game logic in Dafny

FeedIt is a small physics puzzle game. Banana boxes and poison boxes drop
from spawn points. The player drags levers and reverses conveyor belts so
the boxes reach a monster. Eating a banana box lowers the stage's "need"
counter. Spawning a banana box lowers its "left" counter. A stage is cleared
when need reaches zero. It is lost when need is still positive, nothing is
left to deliver and no box is on screen.

This project models the discrete game logic of `main.cpp`, apart from the
physics engine, rendering and audio. The session is one immutable record,
`Session.GameState`. It holds:

- the mode and the stage;
- the need and left counters with their caption texts;
- the world: spawn points, belts, created boxes, the `mouseJoint` flag and
  the number of drag joints;
- the tick values: `modeTick`, `tickNextSpawn`, `tickLastEat`;
- the static step accumulator `TICKSUM`;
- `boxesOnScreen`, the music volume and a background-reroll counter.

One call of `Draw` is `Game.Frame`. It runs the pointer section in play,
then the spawn timer and the fixed 16 ms step loop with the win and lose
checks, then the mode's input branch. Whatever the engine or the platform
decides is an input of the frame (`Game.FrameInput`):

- the clock and the elapsed ticks;
- pointer and key events;
- what the two point queries at the pointer find;
- the random spawn draws;
- the monster contacts of each physics step;
- the number of boxes the drawing pass counted.

Modules follow the program's structure:

- `Captions`: `%d` text and its parser.
- `Session`: the globals and the three counter updaters.
- `Belts`: belt shapes and the toggle.
- `Layout`: the stage scripts as data.
- `Stages`: `StartLevel`.
- `Feeding`: `SpawnBox` and the monster contact handler.
- `Spawner`: the spawn timer.
- `Stepper`: the accumulator and the step checks.
- `Pointer`: grab, release and belt toggle.
- `Modes`: per-mode input.
- `Game`: one frame and the session invariant. `Game.Inv` is `Game.Shaped`
  (counters, captions, belts and boxes as a stage leaves them) plus "the
  joint flag is set iff exactly one drag joint exists". `Game.InvAsWritten`
  is `Game.Shaped` plus the weaker "a set flag means at least one drag
  joint", which is all the press as written keeps.
- `Scenarios`: runs of frames.

Two points of the step loop and the pointer section are easy to misread:

- The loop steps while `TICKSUM` is above 16, so exactly 16 is carried over
  (`Stepper.Carry`).
- A release is looked at only in play (see Findings).

Three quirks of the code are modelled as written:

- The belt push is built from the segment's local normal, not its rotated
  one, and is applied as a world-space force. Every belt therefore pushes
  along the world x axis. The two tilted belts of stage 3 push level, not
  along their slope (`Layout.TiltedBeltsPushLevel`).
- Pausing does not move the spawn tick. After a long pause the spawn loop
  catches up with several boxes in one frame (`Modes.PauseRoundTrip`).
- After a `break` on a mode change, the 16 ticks of that step stay in
  `TICKSUM`. They are stepped after the next stage load
  (`Stepper.StepLoopStops`).

## Model

| member | source | states |
|---|---|---|
| Captions.NeedCaptionSpelled | main.cpp:86 | the need caption is "Need ", the count reading back as `v`, then " Banana box", "es" unless `v` is 1, and " to stay alive" |
| Captions.LeftCaptionSpelled | main.cpp:87 | the left caption is the count reading back as `v`, then " Banana box", "es" unless `v` is 1, and " to be delivered" |
| Captions.StageCaptionSpelled | main.cpp:88 | the stage caption is "Stage " followed by text reading back as `v` |
| Captions.IntTextRoundTrip | main.cpp:86-88 | reading back what `%d` prints gives the same int, negatives included |
| Captions.NeedCaptionInjective | main.cpp:86 | two need counts with the same "Need %d Banana box(es) to stay alive" text are equal |
| Captions.LeftCaptionInjective | main.cpp:87 | two left counts with the same "%d Banana box(es) to be delivered" text are equal |
| Captions.StageCaptionInjective | main.cpp:88 | two stages with the same "Stage %d" text are equal |
| Session.Initial | main.cpp:36-57 | before any load: title mode, stage 0, zero counters with their captions shown, an empty world without joints, all ticks and the accumulator at 0 |
| Session.UpdateFoodNeed | main.cpp:86 | need becomes `v`; its text is the need caption of `v` and names no other count; left and its text are untouched; shown counters stay shown |
| Session.UpdateFoodLeft | main.cpp:87 | left becomes `v`; its text is the left caption of `v` and names no other count; need and its text are untouched |
| Session.UpdateStage | main.cpp:88 | stage becomes `v` and its text names exactly `v`; nothing else changes |
| Belts.MakeBelt | main.cpp:119-136 | the built belt is well formed, its direction bit is `flip`, and it sits at the given pose |
| Belts.Toggle | main.cpp:627-632 | reversal keeps the pose, flips the bit, keeps the belt well formed and negates the push force |
| Belts.ToggleTwice | main.cpp:629-632 | reversing twice restores endpoints, world copies, normal and bit |
| Belts.FlipIsToggle | main.cpp:119-136 | a belt built flipped is the reversal of the same belt built unflipped |
| Belts.PushAlongBelt | main.cpp:208-213 | on a well-formed belt the push force has magnitude 10000 and runs from `b` to `a` in belt coordinates; applied in world space it is -x when unreversed and +x when reversed, whatever the pose |
| Layout.BuildBelts | main.cpp:249-447 | one belt per placement, in order, each well formed with the placement's flip and pose |
| Layout.TiltedBeltsPushLevel | main.cpp:362-373 | the two tilted belts of stage 3 slope, yet each pushes with (10000, 0), level along the world x axis |
| Layout.SpawnPointCounts | main.cpp:249-447 | stages 0 to 5 have 2, 1, 1, 2, 3, 3 spawn points; every other index has none |
| Feeding.Eat | main.cpp:198-206 | a banana box lowers need by one, a poison box raises it by one; left is untouched and the eat tick is recorded |
| Feeding.EatAll | main.cpp:198-206 | after a step's contacts need has moved by poison count minus banana count; left and everything but the eat tick are untouched |
| Feeding.EatOrderIrrelevant | main.cpp:198-206 | the state after a step depends only on how many boxes of each kind were eaten, not their order |
| Feeding.SpawnBox | main.cpp:177-190 | refused (nothing changes) when left is at most 0 outside the title screen; otherwise exactly one box is added and left drops by one for a banana box only |
| Feeding.TitleLeftGoesNegative | main.cpp:177-190 | on the title screen a banana box is spawned with left at 0, which drives left to -1 |
| Stages.StageCounters | main.cpp:311-437 | exactly stages 1 to 5 set counters; each needs some banana boxes and sends at least ten more than it needs |
| Stages.StartLevel | main.cpp:230-458 | mode Finish above 5, Title at 0, else Play; the (need, left) pairs (5,15), (10,20), (5,15), (10,30), (10,30) for stages 1 to 5, counters kept otherwise; stage, mode tick and spawn tick (+2000) set; the world is exactly the stage's layout with no joint; volume 100 or 60; the accumulator kept |
| Stages.StartLevelForgets | main.cpp:230-458 | loading forgets the old world, mode and timers: two sessions that agree on what survives load to the same state |
| Stages.StartLevelIdempotent | main.cpp:230-458 | loading a non-title stage twice at one tick equals loading it once |
| Spawner.SpawnOnceSpawns | main.cpp:651-655 | one iteration moves the spawn tick by 2500; without a spawn point, or when the spawn is refused, nothing else changes; otherwise one box of the drawn cargo is appended at a spawn point, the earlier boxes kept, and left drops for a banana box |
| Spawner.SpawnLoop | main.cpp:649-656 | on exit the spawn tick is not in the past and has moved by exactly 2500 per iteration; boxes are only appended; need is untouched and left never rises |
| Spawner.SpawnLoopBoxes | main.cpp:649-656 | at most one box per iteration, each at one of the spawn points |
| Spawner.SpawnLoopLeft | main.cpp:649-656 | left falls by exactly the number of banana boxes the loop created |
| Spawner.SpawnLoopWithoutPoints | main.cpp:651-654 | with no spawn point the loop only moves the spawn tick |
| Spawner.TitleSpawnsEveryTick | main.cpp:649-656 | on the title screen with a spawn point every iteration creates a box |
| Spawner.PlaySpawnsUntilDelivered | main.cpp:649-656 | in play a non-negative left stays non-negative, and an iteration without a box happens only once left is used up |
| Spawner.RunSpawnTimer | main.cpp:649-656 | the `while` loop as written computes the same state as the recursive definition |
| Stepper.Accumulate | main.cpp:658-659 | the loop's arithmetic: `k*16 + after == before + elapsed`, `after <= 16`, and at least 1 once a step was taken |
| Stepper.Settle | main.cpp:663-678 | in play need at or below 0 clears (checked first); otherwise positive need, nothing left and no box on screen loses; either records the tick; in every other case, and outside play, nothing changes |
| Stepper.CheckAfterStep | main.cpp:663-678 | the two checks with their early exit agree with `Settle` and report a mode change |
| Stepper.StepLoopDrains | main.cpp:658-680 | the loop takes no step exactly when at most 16 ticks are stored, and unless the mode changed it leaves at most 16 |
| Stepper.StepLoopAccounting | main.cpp:658-680 | without a mode change `k` steps are taken with `k*16 + after == before`, and `after` is what `Carry` predicts |
| Stepper.StepLoopStops | main.cpp:663-678 | a mode change happens only in play, to Clear or GameOver; it records the tick and stops the loop with that step's 16 ticks not deducted |
| Stepper.StepLoopFrame | main.cpp:658-680 | the loop changes only need, the eat tick, the mode, the mode tick and the accumulator; left is untouched |
| Stepper.StepLoopOutcome | main.cpp:663-678 | from play the loop ends in Play, Clear or GameOver, and each outcome is justified by the counters it ended with |
| Stepper.RunSteps | main.cpp:658-680 | the `for` loop with `break` as written computes the recursive definition |
| Stepper.CarryAbsorbs | main.cpp:658-659 | stepping what was carried plus new ticks leaves what stepping the whole total leaves |
| Stepper.FramesClosedForm | main.cpp:658-659 | over many frames without mode change the accumulator ends at `Carry` of the total and the steps account for the rest, from any start value once there is a frame |
| Stepper.ChunkingIrrelevant | main.cpp:658-659 | how elapsed time is split into frames does not change the steps taken or the ticks carried, from any carried value when both splits have a frame (17 to 32 after a `break` included) |
| Stepper.RunFramesMode | main.cpp:658-680 | over successive frames of the loop the mode either stays or leaves play for good |
| Stepper.RunFramesAccounted | main.cpp:658-680 | successive frames of the loop that end in their starting mode take the steps and leave the ticks that `Frames` computes from the frame times alone |
| Stepper.ChunkingExample | main.cpp:658-659 | frames of 10, 10, 10 and of 8, 8, 8, 6 ms both take one step and carry 14 |
| Pointer.ToggleAt | main.cpp:624-632 | the probed belt alone is reversed; an index naming no belt changes nothing |
| Pointer.ToggleAtTwice | main.cpp:629-632 | reversing the same belt twice restores the belt list |
| Pointer.PressAsWritten | main.cpp:610-621 | a grab of a finite-mass body sets `mouseJoint` and adds a drag joint to those already in the world; otherwise joints are untouched |
| Pointer.Press | main.cpp:610-621 | corrected press: after a grab exactly one drag joint exists |
| Pointer.Release | main.cpp:636-641 | a release with `mouseJoint` set removes that one joint and clears the flag; without a joint nothing changes |
| Pointer.BeltChangesOnlyOnEmptyPress | main.cpp:610-633 | the belts change exactly when a press found nothing grabbable and then hit an existing belt; both versions agree on belts |
| Pointer.ToggleAtKeepsBelts | main.cpp:624-632 | reversing any belt keeps the list the stage's belts up to reversal, all well formed |
| Pointer.PointerKeepsInvariant | main.cpp:609-641 | the corrected pointer section keeps "joint flag set iff exactly one drag joint", keeps the belts the stage's up to reversal, and touches nothing else |
| Pointer.PointerSections | main.cpp:609-641 | in both versions a frame without press or release leaves the world unchanged; a release clears the joint flag; a grab without release sets it; a lone release with the flag set removes one drag joint; spawn points and boxes are untouched |
| Pointer.PointerAsWrittenCountsJoint | main.cpp:609-641 | as written only the weaker fact survives, a set flag means at least one drag joint, and the belts stay the stage's up to reversal, all well formed |
| Pointer.PointerVersionsAgree | main.cpp:610-621 | the two versions differ exactly on a grab made while `mouseJoint` is already set |
| Modes.ModeInput | main.cpp:740-809 | every load is exactly the `StartLevel` of the stage named here, at the frame's tick. Title: click or Space loads stage 1, anything else changes nothing; play: Escape pauses and nothing else changes, without Escape nothing changes at all; pause: resume beats Q (title) beats R (reload); game over: retry only after more than 500 ms and a click or Space; clear: next stage after more than 2000 ms; finish: stage 1 after more than 500 ms and a click or Space |
| Modes.PauseRoundTrip | main.cpp:753-776 | pausing then resuming restores the session exactly, spawn tick included |
| Modes.ModeTransitions | main.cpp:740-809 | the modes each mode can reach in one frame of input |
| Modes.ClearAdvances | main.cpp:790-797 | once the banner has shown more than 2000 ms, stage 5 leads to the final screen and earlier stages to the next |
| Modes.RetryRestoresCounters | main.cpp:780-789 | a retry after a loss reloads the same stage with its fresh counters |
| Game.StartLevelEstablishesInv | main.cpp:230-458 | loading any stage from 0 to 6 establishes the session invariant with no joint and no drag joint |
| Game.Boot | main.cpp:487 | `Init` yields the title screen, satisfying the invariant, first spawn 2000 ms later, two spawn points, no boxes |
| Game.SpawnKeepsShape | main.cpp:647-656 | the spawn timer keeps the shape of the session, the joints, the mode and the stage |
| Game.StepKeepsShape | main.cpp:658-680 | the step loop keeps the shape, the joints and the stage, changing the mode only from play to Clear or GameOver |
| Game.SimulateKeepsShape | main.cpp:647-681 | spawning and stepping together keep the shape, the joints and the stage |
| Game.ModeInputKeepsShape | main.cpp:740-809 | every input branch keeps the shape and either keeps the joints or, on a load, leaves none |
| Game.PointerOnlyInPlay | main.cpp:546-645 | outside play the pointer counts only as a click; queries and releases change nothing |
| Game.FrameKeepsInv | main.cpp:544-810 | every frame with the corrected press keeps the invariant |
| Game.FrameAsWrittenKeepsInv | main.cpp:544-810 | every frame with the press as written keeps the shape and the weaker joint fact |
| Game.FrameEffects | main.cpp:544-810 | in both versions a frame records the drawn box count; a stage change comes with a fresh world, no joint and the frame's tick; a paused frame without a press or key changes nothing but the drawn count, a release included |
| Scenarios.RunKeepsInv | main.cpp:544-810 | any number of frames keep the invariant |
| Scenarios.BootedRunKeepsInv | main.cpp:460-487 | every session started by `Init` satisfies the invariant after any frames |
| Scenarios.RunAsWrittenKeepsInv | main.cpp:544-810 | any number of frames as written keep the weaker invariant |
| Scenarios.BootedRunAsWrittenKeepsInv | main.cpp:460-487 | every session started by `Init` satisfies the weaker invariant after any frames as written |
| Scenarios.TitleFirstSpawn | main.cpp:649-656 | 2001 ms after boot the title screen drops a banana box at its first spawn point, left becomes -1 and the next spawn is 2500 ms later |
| Scenarios.FeedingClears | main.cpp:663-669 | a play frame whose first step feeds need to 0 ends in Clear at the same stage with the frame's tick |
| Scenarios.ClickStarts | main.cpp:748 | a click on the title screen loads stage 1 in play with no joint |
| Scenarios.GrabInPlay | main.cpp:610-621 | a grab in play adds a joint as written and leaves exactly one when corrected |
| Scenarios.EscapePauses | main.cpp:761 | Escape in play pauses and changes nothing else |
| Scenarios.ReleaseIgnoredWhilePaused | main.cpp:546-641 | while paused a release changes nothing, even with `mouseJoint` set |
| Scenarios.EscapeResumes | main.cpp:776 | Escape while paused resumes play |
| Scenarios.GrabReachable | main.cpp:610-621 | from boot, a click and a grab reach play holding one joint in both versions |
| Scenarios.PauseReleaseResume | main.cpp:761-776 | pause, a release while paused and resume leave the joint set |
| Scenarios.JointLeakAsWritten | main.cpp:609-641 | as written, grab, pause, release, resume and grab end with two drag joints |
| Scenarios.JointReplaced | main.cpp:609-641 | with the corrected press the same frames end with exactly one drag joint |

## Left out

- Physics: stepping, contacts, forces, joints' mechanics, masses and point queries live in the Chipmunk library, which is not part of this model. Their outcomes are frame inputs: the monster contacts per step, what each query finds, and the drawn box count.
- Boxes are never removed from `World.created`. Removal of eaten and fallen boxes is post-step engine work, and the game logic sees it only through `boxesOnScreen`.
- The lose check reads `boxesOnScreen` from the previous drawing pass. The model takes it as an input of each frame and does not derive it.
- Rendering, text drawing, the stage caption fade, the monster animation, sounds and music data are not modelled. Only the music volume `StartLevel` sets is kept.
- `RAND_BOOL`, `RAND_VECTORELEMENT` and `RAND_COLOR` are arbitrary inputs. The background colours are reduced to a counter of rerolls under the condition `!stage || stage != startstage`.
- Asset loading and window setup in `Init` are not modelled. Only its `StartLevel(0)` is (`Game.Boot`).
- The developer-only map editor, export and debug drawing (`ZILLALOG`) are not modelled.
- Escape on the title screen quits the application. Quitting is outside the session and is not modelled.
- Ticks are unbounded integers. The width and wrap-around of `ticks_t`, and of the `ZLSINCE` difference, are defined in the framework headers, which are not part of this model. The need and left counters and the stage are C `int` in main.cpp but unbounded integers here, so their 32-bit overflow is not modelled; the title screen lowers left without end (`Feeding.TitleLeftGoesNegative`), though overflow would take millions of years of spawns.
- Stages.StartLevel: the `if (space)` guard on teardown is not modelled. The model always replaces the world; before the first load the world is empty anyway.
- Belts.PushAlongBelt: the belt's normal is taken to be the clockwise quarter turn (`cpvrperp`) of the unit vector from `a` to `b`, as Chipmunk 7's segment constructor computes it. That library is not part of this model; with the counter-clockwise turn every push would point the other way.
- Layout.BuildBelts: the rotations of the two tilted belts of stage 3 are six-decimal values of cos and sin of their angles, not the engine's float results.

## Findings

| source | as written | input that shows it | evidently intended | confidence | as-written member | corrected member |
|---|---|---|---|---|---|---|
| main.cpp:609-641 | The pointer section runs only when the frame starts in play, so a release during a pause is never seen. A later press overwrites `mouseJoint` without removing the joint it still refers to. | Grab a lever in play, press Escape, release the button while paused, press Escape, grab again. Two drag joints are in the world and only one can ever be released. | At most one drag joint exists: a new grab replaces the old joint. | not executed; high that the joint stays, medium that players hit it | Scenarios.JointLeakAsWritten | Scenarios.JointReplaced |

`Game.Frame` and `Game.Inv` use the corrected press, `Pointer.Press`. The correction covers the grab only: a release during a pause is still not looked at, so the joint stays held until the next release in play (`Scenarios.PauseReleaseResume`). The as-written press is kept as `Pointer.PressAsWritten`, `Game.FrameAsWritten` and `Scenarios.RunAsWritten`.
