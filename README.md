# Unity UI extension behaviours, modelled in Dafny

This project models the UI behaviours of a Unity project's `Assets/Extension`
folder and proves properties of them:

- the scroll-snap components (nearest-cell centring on a grid, snapping a
  scroll rect to its cells, scaling content by scroll position, drag-direction
  animation);
- the slider and animation binders (sliders driving animation clips or an
  Animator's normalized time, snapping back, resetting);
- the card fan and the fly-to-target effects;
- the counters and text widgets (score display, number counter, text cycler,
  random animation player);
- the treasure-box mini-game and its controller, the limited prefab spawner
  and the random sequential activator;
- the wind-up rotation, the width-capped content size fitter and the canvas
  input blocker;
- the editor window that regroups and renames animation curve paths.

There is one module per C# file, plus `Common` for the engine arithmetic the
files share. That arithmetic covers:

- `Mathf.Clamp01`, `Mathf.Lerp` (which clamps its weight) and
  `Mathf.RoundToInt` (round half to even);
- decimal formatting with and without digit grouping;
- the Fisher-Yates shuffle;
- substring search.

How the engine is represented:

- A component whose fields change is a `class` with those fields. Each method
  states its new state as a pure step function of the old one, and the
  lemmas are about those functions.
- Floats are `real`. Scene objects are numbered, and a child is its number.
- Calls into the engine become outputs. Tweens started, clips played,
  objects activated or destroyed and logged warnings are recorded in fields
  or in the returned value.
- A coroutine is its suspended state: a record of where it waits and what
  follows. A `Resume`/`Tick` function runs one frame of it. `StartCoroutine`
  runs the first segment at once, as Unity does. `WaitForSeconds` counts the
  frame lengths passed in.
- `Random.Range` is an oracle parameter constrained to its range
  (`IntRange`, `RealRange`). An `AnimationCurve` is a function `real -> real`.
- Editor and inspector input (button presses, typed text, dragged objects)
  is passed in as parameters.

## Model

| member | source | states |
|---|---|---|
| Common.Clamp01 | Assets/Extension/TMPNumberCounter.cs:78 | Mathf.Clamp01: the result is in [0, 1], equal to x inside it and to the nearer bound outside |
| Common.ClampInt | Assets/Extension/CenterFirstCell_GridLayout.cs:64 | Mathf.Clamp on ints: within [lo, hi] when that range is non-empty, and v itself when v is inside |
| Common.Lerp | Assets/Extension/ScoreDisplay.cs:47 | Mathf.Lerp clamps its parameter: the result lies between a and b, is a for t <= 0 and b for t >= 1 |
| Common.Lerp3 | Assets/Extension/ScrollContentScaler.cs:40 | Vector3.Lerp: each component lies between the two end points' |
| Common.RoundToIntNearest | Assets/Extension/SnapScrollRect.cs:61 | Mathf.RoundToInt: the result is an integer nearest to x, the even one on a tie |
| Common.RoundToIntOfInt | Assets/Extension/SnapScrollRect.cs:61 | a whole number rounds to itself |
| Common.RoundToIntBetween | Assets/Extension/TMPNumberCounter.cs:80 | a value between two integers rounds to an integer between them |
| Common.DecimalRoundTrip | Assets/Extension/ScoreDisplay.cs:35 | int.ToString: a minus sign exactly for negatives, then only digits, and parsing gives the number back |
| Common.NatDigitsRoundTrip | Assets/Extension/ScoreDisplay.cs:35 | the digits of a natural number parse back to it |
| Common.GroupedDecimalMatchesDecimal | Assets/Extension/TMPNumberCounter.cs:142 | the "N0" form with its group commas removed is the plain decimal form |
| Common.GroupThousandsStrips | Assets/Extension/TMPNumberCounter.cs:142 | grouping a digit string by thousands only inserts commas |
| Common.Swap | Assets/Extension/TMPTextCycler.cs:142 | the tuple swap exchanges two entries and leaves the rest |
| Common.SwapPermutes | Assets/Extension/TMPTextCycler.cs:142 | a swap keeps the same elements |
| Common.ShuffleFromPermutes | Assets/Extension/TMPTextCycler.cs:137-144 | every prefix of the Fisher-Yates loop keeps the same elements |
| Common.ShuffledPermutes | Assets/Extension/RandomSequentialActivator.cs:64-71 | the shuffle keeps the length and the elements: it is a permutation |
| Common.Shuffle | Assets/Extension/RandomSequentialActivator.cs:64-71 | the loop from the last index down, swapping with a drawn j in [0, i], yields the specified shuffle, a permutation of its input |
| CenterNearestCell.AxisDistance | Assets/Extension/CenterFirstCell_GridLayout.cs:192-194 | the distance is non-negative; it is measured along x only for a horizontal-only rect and along y in every other axis configuration, both axes included |
| CenterNearestCell.Scan | Assets/Extension/CenterFirstCell_GridLayout.cs:178-201 | the candidate after the first k children, if any, is one of them and is a non-null cell |
| CenterNearestCell.ScanIsNearest | Assets/Extension/CenterFirstCell_GridLayout.cs:178-201 | after k children there is no candidate exactly when none of them is a valid cell; otherwise the candidate is the lowest-index child at minimal distance |
| CenterNearestCell.CenterCell | Assets/Extension/CenterFirstCell_GridLayout.cs:171-204 | GetCenterCell returns null or the index of a non-null child |
| CenterNearestCell.CenterCellIsNearest | Assets/Extension/CenterFirstCell_GridLayout.cs:171-204 | GetCenterCell returns null iff no child is a non-null cell, and otherwise the lowest-index child whose axis distance to the viewport centre is minimal |
| CenterNearestCell.NearestIsUnique | Assets/Extension/CenterFirstCell_GridLayout.cs:196-200 | the strict `<` comparison makes the nearest child unique: two children both nearest-with-lowest-index are the same child |
| CenterNearestCell.ResolverPicksCellAt200 | Assets/Extension/CenterFirstCell_GridLayout.cs:171-204 | on five cells at x = 0, 100, 200, 300, 400 and a viewport centre at x = 215 in a horizontal rect, the resolver picks the cell at 200 |
| CenterNearestCell.SnapTweenFor | Assets/Extension/CenterFirstCell_GridLayout.cs:248-260 | the snap tween moves x unless the rect is vertical-only and y unless it is horizontal-only (both for both axes), and its completion restores the given inertia |
| CenterNearestCell.SnapCentresCell | Assets/Extension/CenterFirstCell_GridLayout.cs:242-260 | once the snap tween for cell i has run to its end, i sits at distance 0 from the viewport centre (no clamping to bounds), so the resolver then returns i or a lower-index cell at distance 0 |
| CenterNearestCell.StartPadding | Assets/Extension/CenterFirstCell_GridLayout.cs:47-59 | start-centering pads left and right only for a horizontal-only rect and top and bottom only for a vertical-only one, always by the same amount on both sides, and pads nothing otherwise |
| CenterNearestCell.StartPaddingCentresEndCells | Assets/Extension/CenterFirstCell_GridLayout.cs:47-59 | with that padding, for any number of cells and any spacing, the first cell's centre lies within half a pixel of the viewport centre when the content is at its start, and the last cell's when the content is scrolled to its end, horizontally and vertically alike |
| CenterNearestCell.LastCentreFromEnd | Assets/Extension/CenterFirstCell_GridLayout.cs:47-59 | the last of n cells sits half a cell and the trailing padding before the end of the content |
| CenterNearestCell.OverlappingSnapsLeaveInertiaOff | Assets/Extension/CenterFirstCell_GridLayout.cs:252-267 | two overlapping drag-end snaps restore the original inertia at the first completion and then switch it off for good, because the second snap remembered `false` |
| CenterNearestCell.Tick | Assets/Extension/CenterFirstCell_GridLayout.cs:127-150 | Update records the new centre; it reports a change iff there was a previous centre and it differs; it schedules a settle iff the centre equals the previous one, the rect is stopped, no drag is under way and none was scheduled for this stop; scheduling sets the flag and a change without scheduling clears it |
| CenterNearestCell.BeginDrag | Assets/Extension/CenterFirstCell_GridLayout.cs:99-102 | a drag begins: dragging is set and the per-stop flag is cleared, the centres untouched |
| CenterNearestCell.EndDrag | Assets/Extension/CenterFirstCell_GridLayout.cs:121-124 | a drag ends: only the dragging flag changes |
| CenterNearestCell.Settle | Assets/Extension/CenterFirstCell_GridLayout.cs:152-169 | the delayed continuation records its cell as snapActiveCell iff that cell is still the centre and no drag is under way, and otherwise changes nothing |
| CenterNearestCell.NoRescheduleOnSameStop | Assets/Extension/CenterFirstCell_GridLayout.cs:143-147 | once a settle was scheduled for the current stop, any run of Updates on the same cell schedules nothing more |
| CenterNearestCell.AtMostOneSettlePerStop | Assets/Extension/CenterFirstCell_GridLayout.cs:130-149 | however many Updates rest on one cell without a drag, at most one settle is scheduled, and none if one already was |
| CenterNearestCell.SettleAfterTwoStableTicks | Assets/Extension/CenterFirstCell_GridLayout.cs:131-149 | arriving on a new cell the first Update never schedules; a second stopped Update on that cell schedules exactly one settle |
| CenterNearestCell.StaleSettleIsNoOp | Assets/Extension/CenterFirstCell_GridLayout.cs:156 | a settle whose cell is no longer the centre, or whose delay ends during a drag, does nothing |
| CenterNearestCell.StopCell | Assets/Extension/CenterFirstCell_GridLayout.cs:104-139 | stopping the active cell's Animation only removes playing clips, never adds one |
| CenterNearestCell.CenterNearestCellGrid.GetCenterCell | Assets/Extension/CenterFirstCell_GridLayout.cs:171-204 | the loop returns the resolver's cell: null iff no valid child, otherwise the lowest-index nearest child |
| CenterNearestCell.CenterNearestCellGrid.StopAllCellAnimationsExcept | Assets/Extension/CenterFirstCell_GridLayout.cs:272-283 | exactly the animations of the non-null cells other than the excepted one, those with a child, are stopped |
| CenterNearestCell.CenterNearestCellGrid.OnBeginDrag | Assets/Extension/CenterFirstCell_GridLayout.cs:99-119 | the tracker takes the BeginDrag step; the snap-active cell's animation stops; the drag clip plays on the centre cell's first child only when the clip is set and that Animation has it |
| CenterNearestCell.CenterNearestCellGrid.SnapToNearestCell | Assets/Extension/CenterFirstCell_GridLayout.cs:206-270 | without a nearest cell nothing changes; otherwise inertia goes off and one tween towards that cell is added, remembering the previous inertia |
| CenterNearestCell.CenterNearestCellGrid.OnEndDrag | Assets/Extension/CenterFirstCell_GridLayout.cs:121-125 | the tracker takes the EndDrag step and the snap of SnapToNearestCell follows |
| CenterNearestCell.CenterNearestCellGrid.CompleteSnapTween | Assets/Extension/CenterFirstCell_GridLayout.cs:264-267 | a finished tween writes back the inertia value it carries and leaves the list |
| CenterNearestCell.CenterNearestCellGrid.Update | Assets/Extension/CenterFirstCell_GridLayout.cs:127-150 | the frame takes the Tick step with "stopped" meaning speed below 1; a scheduled settle is queued for the centre cell; a change stops the snap-active cell's animation |
| CenterNearestCell.CenterNearestCellGrid.ResumeSettle | Assets/Extension/CenterFirstCell_GridLayout.cs:152-169 | the queued settle leaves the queue and takes the Settle step; only when it proceeds, a snap clip is set and the cell has a child are the other cells stopped and the snap clip played if the Animation has it |
| CenterNearestCell.CenterNearestCellGrid.CenterStartCellAnimated | Assets/Extension/CenterFirstCell_GridLayout.cs:34-97 | without a grid or children nothing happens; otherwise the start padding is written, the start index is clamped into [0, childCount-1], and a non-null target cell gets a snap tween that restores inertia to true |
| SnapScrollRect.SnapIndex | Assets/Extension/SnapScrollRect.cs:60-61 | nearestIndex is within half a step of the position measured in cell steps |
| SnapScrollRect.SnapTarget | Assets/Extension/SnapScrollRect.cs:58-73 | the target lies within half a cell step of the current position, measured in steps; a zero cell step targets the origin |
| SnapScrollRect.SnapTargetOnGrid | Assets/Extension/SnapScrollRect.cs:58-73 | every snap target is a whole number of cell steps from the origin, and with a zero cell step the target is the origin |
| SnapScrollRect.SnapTargetIsNearest | Assets/Extension/SnapScrollRect.cs:55-74 | the index SnapToClosestCell rounds to is an integer nearest to the position measured in cell steps (the even one on a tie, as Mathf.RoundToInt does), and for a positive step the target lies within half a step of the current position |
| SnapScrollRect.SnapTargetIdempotent | Assets/Extension/SnapScrollRect.cs:60-70 | a position already on a cell boundary snaps to itself, so snapping twice is snapping once |
| SnapScrollRect.SnapScrollRectBehaviour.constructor | Assets/Extension/SnapScrollRect.cs:13-15 | the field initialisers: cell step 200, horizontal, not vertical, no tween, nothing logged |
| SnapScrollRect.SnapScrollRectBehaviour.Start | Assets/Extension/SnapScrollRect.cs:17-32 | without a GridLayoutGroup the missing-grid warning is logged and the cell step is 100; with one it is cell size plus spacing along x for a horizontal rect and along y otherwise, and nothing is logged; the axis flags copy the scroll rect's |
| SnapScrollRect.SnapScrollRectBehaviour.OnBeginDrag | Assets/Extension/SnapScrollRect.cs:34-37 | DOKill: no tween remains on the content |
| SnapScrollRect.SnapScrollRectBehaviour.OnEndDrag | Assets/Extension/SnapScrollRect.cs:39-74 | a horizontal rect gets zero velocity and an x tween to SnapTarget of the x position; a vertical-only rect the same along y; a zero cell step still snaps, to the origin; a rect with neither axis changes nothing |
| ScrollContentScaler.RawT | Assets/Extension/ScrollContentScaler.cs:35-37 | the scroll parameter is the horizontal normalised position for a horizontal rect and one minus the vertical one otherwise |
| ScrollContentScaler.TargetScale | Assets/Extension/ScrollContentScaler.cs:39-40 | each component of the target scale lies between the start and end scale's; a curve value at or below 0 gives the start scale, at or above 1 the end scale (Vector3.Lerp clamps) |
| ScrollContentScaler.ScrollContentScalerBehaviour.Update | Assets/Extension/ScrollContentScaler.cs:33-53 | a target scale different from the remembered one is remembered and replaces any running scale tween with one towards it; an equal one changes nothing |
| ScrollContentScaler.ScrollContentScalerBehaviour.CompleteTween | Assets/Extension/ScrollContentScaler.cs:50-51 | a finished DOScale leaves the content at its target and no tween running |
| ScrollDirectionAnimator.Classify | Assets/Extension/ScrollDirectionAnimator.cs:33-53 | no direction exactly when the threshold is on and the drag is shorter than minDragDistance; otherwise Right/Left when the x component dominates strictly (Right iff x > 0) and Up/Down when it does not (Up iff y > 0) |
| ScrollDirectionAnimator.ReversedDragReversesDirection | Assets/Extension/ScrollDirectionAnimator.cs:36-52 | reversing a drag whose dominant component is non-zero gives the opposite direction, and the threshold accepts both or neither |
| ScrollDirectionAnimator.StillDragIsDown | Assets/Extension/ScrollDirectionAnimator.cs:39-51 | a zero delta with the threshold off falls through both `> 0` tests and plays the Down clip |
| ScrollDirectionAnimator.Played | Assets/Extension/ScrollDirectionAnimator.cs:66-74 | a child's Animation (added when missing) ends up holding the clip (added under its name when absent), with it as the current clip and playing; no other clip is added |
| ScrollDirectionAnimator.PlayedIdempotent | Assets/Extension/ScrollDirectionAnimator.cs:66-74 | playing the same clip twice leaves the Animation as playing it once |
| ScrollDirectionAnimator.ScrollDirectionAnimatorBehaviour.Awake | Assets/Extension/ScrollDirectionAnimator.cs:22-26 | a missing content is taken from the scroll rect; a set one is kept |
| ScrollDirectionAnimator.ScrollDirectionAnimatorBehaviour.PlayOnChildren | Assets/Extension/ScrollDirectionAnimator.cs:60-76 | a null clip changes nothing; a clip with no content throws (enumerating a null content at line 64) and changes nothing; otherwise every child, and only the children, take the Played step for that clip |
| ScrollDirectionAnimator.ScrollDirectionAnimatorBehaviour.OnDrag | Assets/Extension/ScrollDirectionAnimator.cs:33-53 | the children are played with the clip of the classified direction; nothing changes when there is no direction or that clip is null; it throws exactly when there is a clip to play and no content |
| LimitedPrefabSpawner.Destroyed | Assets/Extension/PrefabSpawnerLimited.cs:34-45 | destroying an object removes it from the live objects and from the parent's children and touches nothing else |
| LimitedPrefabSpawner.Instantiated | Assets/Extension/PrefabSpawnerLimited.cs:27-28 | Instantiate creates a fresh live object, appended to the queue and, when there is a parent, to its children |
| LimitedPrefabSpawner.DropOldest | Assets/Extension/PrefabSpawnerLimited.cs:32-34 | the oldest entry leaves the queue; it is destroyed if still alive and skipped as null otherwise |
| LimitedPrefabSpawner.Spawn | Assets/Extension/PrefabSpawnerLimited.cs:25-36 | the queue becomes the old queue plus the new object, with exactly one oldest entry dropped iff the count exceeded maxCount |
| LimitedPrefabSpawner.NullEntrySkipped | Assets/Extension/PrefabSpawnerLimited.cs:32-34 | an already destroyed oldest entry is dequeued without destroying anything |
| LimitedPrefabSpawner.OldestDestroyed | Assets/Extension/PrefabSpawnerLimited.cs:30-35 | past maxCount a live oldest object is destroyed and leaves the parent's children, while the new one stays alive |
| LimitedPrefabSpawner.SpawnKeepsInv | Assets/Extension/PrefabSpawnerLimited.cs:25-36 | a spawn keeps identifiers below the next one and the parent's children live |
| LimitedPrefabSpawner.SpawnKeepsBound | Assets/Extension/PrefabSpawnerLimited.cs:30 | a queue within max(maxCount, 0) stays within it |
| LimitedPrefabSpawner.SpawnExtendsRun | Assets/Extension/PrefabSpawnerLimited.cs:25-36 | a queue holding the newest objects in order still does after a spawn, one longer up to max(maxCount, 0) |
| LimitedPrefabSpawner.SpawnManyKeepsNewest | Assets/Extension/PrefabSpawnerLimited.cs:25-36 | after n spawns the queue holds exactly the newest min(old length + n, max(maxCount, 0)) objects, oldest first |
| LimitedPrefabSpawner.CleanUp | Assets/Extension/PrefabSpawnerLimited.cs:39-49 | without a parent nothing changes; with one, every child of the parent (spawned or not) is destroyed and the queue is emptied, other live objects staying alive |
| LimitedPrefabSpawner.CleanUpIdempotent | Assets/Extension/PrefabSpawnerLimited.cs:39-49 | cleaning up twice is cleaning up once |
| LimitedPrefabSpawner.SpawnAfterCleanUp | Assets/Extension/PrefabSpawnerLimited.cs:25-49 | after a clean-up the next spawn leaves just the new object queued, or nothing when maxCount < 1 |
| LimitedPrefabSpawner.LimitedPrefabSpawnerBehaviour.Awake | Assets/Extension/PrefabSpawnerLimited.cs:12-22 | with a parent, the watcher is present afterwards and one CleanUpAllChildren handler is added to each of its events; without one nothing changes |
| LimitedPrefabSpawner.LimitedPrefabSpawnerBehaviour.SpawnPrefab | Assets/Extension/PrefabSpawnerLimited.cs:25-36 | the state takes the Spawn step |
| LimitedPrefabSpawner.LimitedPrefabSpawnerBehaviour.CleanUpAllChildren | Assets/Extension/PrefabSpawnerLimited.cs:39-49 | the loop from the last child down destroys the parent's children: the state takes the CleanUp step |
| LimitedPrefabSpawner.LimitedPrefabSpawnerBehaviour.ParentEnabled | Assets/Extension/PrefabSpawnerLimited.cs:57-61 | the watcher's OnEnable cleans up when a handler is hooked and otherwise does nothing |
| LimitedPrefabSpawner.LimitedPrefabSpawnerBehaviour.ParentDisabledOrDestroyed | Assets/Extension/PrefabSpawnerLimited.cs:63-73 | the watcher's OnDisable and OnDestroy clean up when a handler is hooked and otherwise do nothing |
| TreasureBoxController.Fresh | Assets/Extension/TreasureBoxController.cs:24-27 | Init leaves no clicks counted, the box closed and the drawn click count required |
| TreasureBoxController.Click | Assets/Extension/TreasureBoxController.cs:36-50 | an open box ignores clicks; otherwise one click is counted and the box opens iff the count reaches the required one; gold is reported, with the drawn amount, exactly on the click that opens it |
| TreasureBoxController.OpensExactlyOnce | Assets/Extension/TreasureBoxController.cs:36-50 | from a closed box, a run of clicks reports gold exactly once if it reaches max(required, clicks + 1) and never otherwise |
| TreasureBoxController.OpenedIsSilent | Assets/Extension/TreasureBoxController.cs:38 | an opened box never reports again |
| TreasureBoxController.FirstOpeningAfterInit | Assets/Extension/TreasureBoxController.cs:22-50 | after Init, n clicks report gold once iff n >= max(required, 1) |
| TreasureBoxController.TreasureBox.Init | Assets/Extension/TreasureBoxController.cs:22-33 | the counter is fresh with the drawn requirement in [minClicks, maxClicks], and the shake clip is added to the Animation when set |
| TreasureBoxController.TreasureBox.OnBoxClicked | Assets/Extension/TreasureBoxController.cs:36-50 | the counter takes the Click step and returns its gold, drawn in [minGold, maxGold]; the shake plays on each click of a closed box with a clip |
| GameController.Container | Assets/Extension/GameController.cs:78-81 | the nested "Box" child when there is one, else the box itself |
| GameController.Toggled | Assets/Extension/GameController.cs:75-93 | with both halves present the open half shows iff open and the closed half iff not; with either missing nothing changes; the other objects are never touched |
| GameController.Closed | Assets/Extension/GameController.cs:37-72 | the closed view: box button shown, replay hidden, score counter hidden when present |
| GameController.Opened | Assets/Extension/GameController.cs:53-63 | the opened view: box button hidden, replay shown, score counter shown when present |
| GameController.ToggleLog | Assets/Extension/GameController.cs:83-89 | one error is logged exactly when Box_Open or Box_Close is missing from the container |
| GameController.ToggleLoggedIffSkipped | Assets/Extension/GameController.cs:83-92 | the error is logged exactly when the halves are left untouched; otherwise they take the requested flags |
| GameController.ViewsAreConsistent | Assets/Extension/GameController.cs:37-72 | with both halves present, each view shows exactly one half and exactly one of the two buttons |
| GameController.ReplayUndoesOpening | Assets/Extension/GameController.cs:53-73 | replaying after opening gives the same view as closing without having opened |
| GameController.GameControllerBehaviour.Start | Assets/Extension/GameController.cs:19-46 | a missing box or TreasureBoxController stops Start after logging its error, with nothing else changed; otherwise the controller is initialised fresh, the closed view is shown (logging a missing half) and one listener is added to each button |
| GameController.GameControllerBehaviour.OnBoxOpened | Assets/Extension/GameController.cs:53-63 | the opened view is shown (logging a missing half) and the score counter, when present, is handed the gold |
| GameController.GameControllerBehaviour.OnBoxClicked | Assets/Extension/GameController.cs:48-51 | without a controller nothing happens; otherwise the controller takes the Click step and, exactly when it reports gold, the opened view is shown, a missing half is logged, and the counter gets that gold |
| GameController.GameControllerBehaviour.OnReplay | Assets/Extension/GameController.cs:65-73 | the controller is re-initialised fresh and the closed view is shown, logging a missing half |
| ScoreDisplay.FadeSegment | Assets/Extension/ScoreDisplay.cs:40-54 | one resumption of the fade: alpha stays in [0, 1]; the loop ends iff the timer has reached 0.2, and then alpha is 1; otherwise alpha is timer / 0.2 (below 1) and the timer grows by dt |
| ScoreDisplay.FadeAlphaMonotone | Assets/Extension/ScoreDisplay.cs:45-53 | a later timer never gives a lower alpha: the fade only brightens |
| ScoreDisplay.FadeOpensAtHalf | Assets/Extension/ScoreDisplay.cs:36-50 | the fade starts at timer 0.1, so its first segment, run inside StartCoroutine, sets alpha to 0.5 over the 0 just written |
| ScoreDisplay.FadeFrame | Assets/Extension/ScoreDisplay.cs:45-53 | a frame resumes every running fade: none end up added, with no fade alpha is untouched, with some it stays in [0, 1], and timers stay at or above the start |
| ScoreDisplay.FadeEndsOpaque | Assets/Extension/ScoreDisplay.cs:45-53 | a fade past its duration ends at once with alpha 1 |
| ScoreDisplay.ScoreDisplayBehaviour.Start | Assets/Extension/ScoreDisplay.cs:16-20 | ResetScore is hooked to the reset button when there is one |
| ScoreDisplay.ScoreDisplayBehaviour.OnExternalAnimationEnd | Assets/Extension/ScoreDisplay.cs:23-30 | only the first call after a reset shows a score: the text is the drawn number in [minScore, maxScore], a fade starts and alpha is 0.5; later calls change nothing |
| ScoreDisplay.ScoreDisplayBehaviour.ShowRandomScore | Assets/Extension/ScoreDisplay.cs:32-38 | the text is the decimal form of the draw, a new fade joins the running ones and its first segment leaves alpha at 0.5 |
| ScoreDisplay.ScoreDisplayBehaviour.Frame | Assets/Extension/ScoreDisplay.cs:45-53 | the running fades and alpha take the FadeFrame step |
| ScoreDisplay.ScoreDisplayBehaviour.ResetScore | Assets/Extension/ScoreDisplay.cs:57-62 | the text is cleared, alpha is 0.5 and the score may be shown again |
| TmpNumberCounter.FormatNumber | Assets/Extension/TMPNumberCounter.cs:140-143 | the plain format is the decimal form; the comma format is the decimal form with group separators, which read back to it once the commas are dropped |
| TmpNumberCounter.DecimalHasNoCommas | Assets/Extension/TMPNumberCounter.cs:142 | the plain decimal form holds no comma |
| TmpNumberCounter.FormatReadsBack | Assets/Extension/TMPNumberCounter.cs:140-143 | in both formats, dropping the commas gives back the number's decimal form |
| TmpNumberCounter.CountSegment | Assets/Extension/TMPNumberCounter.cs:70-101 | the loop goes on iff elapsed < duration, advancing by dt, with every value it shows between `from` and `to`, written (formatted) only when it differs from the last and with a pulse exactly then when scale animation is on; after the loop the text is `to`, with a final pulse iff `to` was not yet shown |
| TmpNumberCounter.CountReachesTarget | Assets/Extension/TMPNumberCounter.cs:77-85 | a frame at which the curve reaches 1 shows `to` itself |
| TmpNumberCounter.ShrinkSegment | Assets/Extension/TMPNumberCounter.cs:126-137 | the shrinking loop ends iff its time has reached scaleDuration, leaving the scale at scaleFrom, and advances by dt otherwise |
| TmpNumberCounter.ScaleSegment | Assets/Extension/TMPNumberCounter.cs:111-138 | the pulse ends, at scaleFrom, iff it is shrinking (or the duration is not positive) and its time has reached scaleDuration; its time stays non-negative |
| TmpNumberCounter.ShrinkEnds | Assets/Extension/TMPNumberCounter.cs:128-137 | with frames of at least d and scaleDuration <= m*d, the shrink ends at scaleFrom within m + 1 frames |
| TmpNumberCounter.GrowThenShrinkEnds | Assets/Extension/TMPNumberCounter.cs:117-137 | under the same frames, growing then shrinking ends at scaleFrom within 2m + 1 frames |
| TmpNumberCounter.ScalePulseEnds | Assets/Extension/TMPNumberCounter.cs:103-138 | a pulse started from 0 always returns to scaleFrom in bounded time |
| TmpNumberCounter.Pulsed | Assets/Extension/TMPNumberCounter.cs:103-109 | PlayScaleAnimation leaves the text and the count alone and replaces the pulse by a new one, whose time stays non-negative |
| TmpNumberCounter.Applied | Assets/Extension/TMPNumberCounter.cs:75-100 | one resumption of CountRoutine keeps every running job's time non-negative |
| TmpNumberCounter.Started | Assets/Extension/TMPNumberCounter.cs:60-68 | StartCounting keeps every running job's time non-negative |
| TmpNumberCounter.Enabled | Assets/Extension/TMPNumberCounter.cs:43-58 | OnEnable keeps every running job's time non-negative |
| TmpNumberCounter.Framed | Assets/Extension/TMPNumberCounter.cs:70-138 | a frame keeps every running job's time non-negative |
| TmpNumberCounter.FramedRun | Assets/Extension/TMPNumberCounter.cs:70-138 | any run of frames keeps every running job's time non-negative |
| TmpNumberCounter.IdleKeepsText | Assets/Extension/TMPNumberCounter.cs:111-138 | with no count running, frames (pulses included) never change the text and start no count |
| TmpNumberCounter.CountEnds | Assets/Extension/TMPNumberCounter.cs:70-101 | a running count with elapsed >= i*d, under frames of at least d with duration <= m*d, has ended after m - i + 1 frames showing exactly `to`, whatever the pulse does |
| TmpNumberCounter.EnabledCountEnds | Assets/Extension/TMPNumberCounter.cs:43-101 | after OnEnable with a text and playOnEnable, the count ends within m + 1 such frames showing endValue |
| TmpNumberCounter.TmpNumberCounterBehaviour.PlayScaleAnimation | Assets/Extension/TMPNumberCounter.cs:103-109 | the new state is Pulsed: the running pulse is replaced by a new one, run to its first yield |
| TmpNumberCounter.TmpNumberCounterBehaviour.ApplyCount | Assets/Extension/TMPNumberCounter.cs:75-100 | the new state is Applied: the text and the count coroutine take the CountSegment step, and a pulse restarts exactly when the segment asks for one |
| TmpNumberCounter.TmpNumberCounterBehaviour.StartCounting | Assets/Extension/TMPNumberCounter.cs:60-68 | the new state is Started: without a text nothing changes; otherwise the running count is replaced by CountRoutine(from, to), run to its first yield |
| TmpNumberCounter.TmpNumberCounterBehaviour.OnEnable | Assets/Extension/TMPNumberCounter.cs:43-58 | the new state is Enabled: without a text only the missing-text warning is logged; otherwise the start value is shown at scaleFrom and, with playOnEnable, counting to endValue starts |
| TmpNumberCounter.TmpNumberCounterBehaviour.RunCountManually | Assets/Extension/TMPNumberCounter.cs:146-149 | the new state is Started(startValue, endValue): unchanged without a text, otherwise counting restarts |
| TmpNumberCounter.TmpNumberCounterBehaviour.Frame | Assets/Extension/TMPNumberCounter.cs:70-138 | the new state is Framed: the pulse resumes, then the count |
| TmpTextCycler.BuildQueue | Assets/Extension/TMPTextCycler.cs:58-75 | the queue is a permutation of the messages, and the messages themselves unless noRepeatRandom |
| TmpTextCycler.AfterMessage | Assets/Extension/TMPTextCycler.cs:110-123 | after a message, in an index mode at the end of the queue the routine rebuilds the queue and restarts at 0 when looping, and ends otherwise; in every other case it waits changeInterval |
| TmpTextCycler.Show | Assets/Extension/TMPTextCycler.cs:101-135 | without typing the message is shown whole; with typing and a non-empty message the first character is shown and the routine waits inside TypeText; an empty typed message is shown as "" at once |
| TmpTextCycler.Pick | Assets/Extension/TMPTextCycler.cs:90-99 | an index mode takes the queue entry at the index and advances it; plain random mode takes the drawn message and leaves the index |
| TmpTextCycler.AfterPreDelay | Assets/Extension/TMPTextCycler.cs:90-108 | after the pre-delay the text shows the picked message (queue[index] in an index mode, messages[pick] otherwise), whole or, when typing a non-empty one, its first character, and any typing wait is for that message |
| TmpTextCycler.FromTop | Assets/Extension/TMPTextCycler.cs:79-88 | an empty queue ends the routine; a positive preDelay blanks the text and waits |
| TmpTextCycler.Resumed | Assets/Extension/TMPTextCycler.cs:130-134 | a resumed TypeText with characters left shows one more character |
| TmpTextCycler.Start | Assets/Extension/TMPTextCycler.cs:48-88 | ResetAndStart leaves a queue that is a permutation of the messages; with no messages the routine has ended and the text is untouched; with a pre-delay the text is blanked and the routine waits at index 0 |
| TmpTextCycler.AfterMessageKeepsInv | Assets/Extension/TMPTextCycler.cs:110-123 | finishing a message keeps the queue a permutation and the index in range |
| TmpTextCycler.AfterPreDelayKeepsInv | Assets/Extension/TMPTextCycler.cs:90-123 | picking and showing a message keeps the invariant |
| TmpTextCycler.ResumeKeepsInv | Assets/Extension/TMPTextCycler.cs:77-135 | every resumption keeps the invariant (queue a permutation of the messages, index within it, typed text a prefix of its message) |
| TmpTextCycler.StartEstablishesInv | Assets/Extension/TMPTextCycler.cs:48-125 | ResetAndStart establishes the invariant; the routine has stopped at once exactly when there are no messages, or one message shown in a non-looping index mode with no preDelay and nothing left to type |
| TmpTextCycler.ResumeN | Assets/Extension/TMPTextCycler.cs:77-135 | any number of resumptions keeps the invariant |
| TmpTextCycler.TypingEndsWithMessage | Assets/Extension/TMPTextCycler.cs:127-135 | resuming TypeText once per remaining character leaves exactly the message on display |
| TmpTextCycler.SequentialShowsNext | Assets/Extension/TMPTextCycler.cs:91-123 | in an index mode without delay or typing each interval shows the next queue entry, and the last entry wraps to 0 when looping and ends the routine otherwise |
| TmpTextCycler.RandomNeverEnds | Assets/Extension/TMPTextCycler.cs:96-123 | plain random mode shows the drawn message and never ends |
| TmpTextCycler.TmpTextCyclerBehaviour.BuildMessageQueue | Assets/Extension/TMPTextCycler.cs:58-75 | the queue is rebuilt by the in-place shuffle loop as BuildQueue |
| TmpTextCycler.TmpTextCyclerBehaviour.FinishMessage | Assets/Extension/TMPTextCycler.cs:110-123 | the state takes the AfterMessage step |
| TmpTextCycler.TmpTextCyclerBehaviour.ShowNext | Assets/Extension/TMPTextCycler.cs:90-108 | the state takes the pick-and-show step |
| TmpTextCycler.TmpTextCyclerBehaviour.RunFromTop | Assets/Extension/TMPTextCycler.cs:79-88 | the state takes the FromTop step |
| TmpTextCycler.TmpTextCyclerBehaviour.ResetAndStart | Assets/Extension/TMPTextCycler.cs:37-56 | the state is Start's, which satisfies the invariant |
| TmpTextCycler.TmpTextCyclerBehaviour.Stop | Assets/Extension/TMPTextCycler.cs:42-46 | OnDisable leaves no routine running |
| TmpTextCycler.TmpTextCyclerBehaviour.Resume | Assets/Extension/TMPTextCycler.cs:77-135 | the state takes the Resumed step and keeps the invariant |
| RandomPlayAnimation.ClipNames | Assets/Extension/RandomPlayAnimation.cs:37-43 | the list holds exactly the names of the states that have a clip |
| RandomPlayAnimation.RemoveFirst | Assets/Extension/RandomPlayAnimation.cs:105-106 | List.Remove drops one occurrence of a present name and leaves a list without it unchanged |
| RandomPlayAnimation.RemoveFirstOfDistinct | Assets/Extension/RandomPlayAnimation.cs:105-106 | with distinct names the removed name is gone |
| RandomPlayAnimation.RandomAnimation | Assets/Extension/RandomPlayAnimation.cs:98-116 | an empty list gives ""; otherwise the pick is in the list |
| RandomPlayAnimation.PickAvoidsLast | Assets/Extension/RandomPlayAnimation.cs:103-110 | with avoidSameAnimation, more than one distinct name and a non-empty last name, the pick is never the last played |
| RandomPlayAnimation.EveryOtherNameCanBePicked | Assets/Extension/RandomPlayAnimation.cs:98-116 | every listed name other than the last played is picked by some draw |
| RandomPlayAnimation.RandomPlayAnimationBehaviour.InitializeAnimationList | Assets/Extension/RandomPlayAnimation.cs:21-49 | the loop rebuilds the list as ClipNames of the states, and empty without an Animation; an error is logged without an Animation and a warning when the list comes out empty |
| RandomPlayAnimation.RandomPlayAnimationBehaviour.Play | Assets/Extension/RandomPlayAnimation.cs:77-96 | an empty list or an empty pick logs its warning and changes nothing else; otherwise the pick plays and becomes the last played |
| RandomPlayAnimation.RandomPlayAnimationBehaviour.Start | Assets/Extension/RandomPlayAnimation.cs:51-57 | without playOnStart nothing changes; with an empty list or an empty pick only Play's warning is logged; otherwise the pick of GetRandomAnimation for this draw plays, is a listed name, and becomes the last played |
| RandomPlayAnimation.RandomPlayAnimationBehaviour.OnEnable | Assets/Extension/RandomPlayAnimation.cs:59-66 | with an empty list nothing changes; an empty pick only logs Play's warning; otherwise the pick of GetRandomAnimation for this draw plays, is a listed name, and becomes the last played |
| RandomPlayAnimation.RandomPlayAnimationBehaviour.Update | Assets/Extension/RandomPlayAnimation.cs:68-75 | a new pick plays (or Play's warning is logged) only when looping, after a play has ended; it differs from the last one whenever avoidance applies |
| RandomPlayAnimation.RandomPlayAnimationBehaviour.Stop | Assets/Extension/RandomPlayAnimation.cs:118-122 | the animation stops and is no longer playing |
| RandomPlayAnimation.RandomPlayAnimationBehaviour.Pause | Assets/Extension/RandomPlayAnimation.cs:124-127 | the Animation is disabled |
| RandomPlayAnimation.RandomPlayAnimationBehaviour.Resume | Assets/Extension/RandomPlayAnimation.cs:129-132 | the Animation is enabled |
| RandomPlayAnimation.PlayLog | Assets/Extension/RandomPlayAnimation.cs:79-91 | Play logs nothing exactly when the list is non-empty and the pick is not empty; an empty list logs its own warning |
| RandomPlayAnimation.PlayWarnsOnlyWhenEmpty | Assets/Extension/RandomPlayAnimation.cs:79-91 | with non-empty clip names, Play warns only about an empty list, never about a failed pick |
| RandomPlayAnimation.FirstEnabled | Assets/Extension/RandomPlayAnimation.cs:141-154 | the name reported is that of the first enabled state: none before it is enabled |
| RandomPlayAnimation.CurrentAnimationName | Assets/Extension/RandomPlayAnimation.cs:141-154 | "" while the Animation is not playing or no state is enabled; any other answer is the name of an enabled state with no enabled state before it |
| RandomSequentialActivator.AsWrittenFirstStop | Assets/Extension/RandomSequentialActivator.cs:49-62 | with at least one child, the do-while reaches its first WaitForSeconds |
| RandomSequentialActivator.AsWrittenSpinsWithoutChildren | Assets/Extension/RandomSequentialActivator.cs:51-61 | with `loop` set and no children the do-while never reaches a yield, however many passes are allowed |
| RandomSequentialActivator.StartPass | Assets/Extension/RandomSequentialActivator.cs:51-58 | a pass shuffles the list in place into a permutation of itself; with no children the routine ends; otherwise the first child of the new order is activated and logged and the routine waits at position 0 |
| RandomSequentialActivator.StartPassMatchesAsWritten | Assets/Extension/RandomSequentialActivator.cs:49-62 | outside the looping empty case, the corrected pass waits exactly when the code as written reaches a yield |
| RandomSequentialActivator.ResumeStep | Assets/Extension/RandomSequentialActivator.cs:55-61 | each resumption keeps the list a permutation of the children and the position within it |
| RandomSequentialActivator.ResumeN | Assets/Extension/RandomSequentialActivator.cs:51-61 | any number of resumptions keeps the list a permutation of the children and the invariant |
| RandomSequentialActivator.StepInPass | Assets/Extension/RandomSequentialActivator.cs:55-59 | inside a pass, a resumption activates and logs the next child of the shuffled order |
| RandomSequentialActivator.StepAtPassEnd | Assets/Extension/RandomSequentialActivator.cs:55-61 | after the last child, the routine starts a new shuffled pass when looping and ends otherwise |
| RandomSequentialActivator.PassWalksList | Assets/Extension/RandomSequentialActivator.cs:55-59 | n resumptions within a pass log the next n children in list order and leave the list alone |
| RandomSequentialActivator.ResumeKeepsActiveSince | Assets/Extension/RandomSequentialActivator.cs:57 | children are only ever activated: the active set stays what it was plus everything logged since |
| RandomSequentialActivator.ResumeNKeepsActiveSince | Assets/Extension/RandomSequentialActivator.cs:51-61 | the same over any number of resumptions |
| RandomSequentialActivator.OnePassLogsShuffled | Assets/Extension/RandomSequentialActivator.cs:51-59 | a full pass activates the children in exactly the shuffled order |
| RandomSequentialActivator.OnePassActivatesChildren | Assets/Extension/RandomSequentialActivator.cs:51-59 | after a full pass every child is active |
| RandomSequentialActivator.OnePassActivatesAll | Assets/Extension/RandomSequentialActivator.cs:49-62 | a full pass logs each child exactly once, in the shuffled order, activates them all, and without `loop` the next resumption ends the routine |
| RandomSequentialActivator.RandomSequentialActivatorBehaviour.Awake | Assets/Extension/RandomSequentialActivator.cs:16-25 | the list is the children 0 .. childCount-1 in order |
| RandomSequentialActivator.RandomSequentialActivatorBehaviour.OnEnable | Assets/Extension/RandomSequentialActivator.cs:27-38 | every listed child is deactivated, the running routine is replaced, and the new one runs its first pass up to its first wait |
| RandomSequentialActivator.RandomSequentialActivatorBehaviour.BeginPass | Assets/Extension/RandomSequentialActivator.cs:51-71 | the in-place shuffle loop and the first activation: the state takes the StartPass step |
| RandomSequentialActivator.RandomSequentialActivatorBehaviour.OnDisable | Assets/Extension/RandomSequentialActivator.cs:40-47 | no routine is left running |
| RandomSequentialActivator.RandomSequentialActivatorBehaviour.Resume | Assets/Extension/RandomSequentialActivator.cs:55-61 | the state takes the ResumeStep step and keeps the invariant |
| SliderReset.ResetSegment | Assets/Extension/SliderResetter.cs:41-56 | the loop ends iff its time has reached resetDuration, and then the value is exactly 0; inside it the value lies between the start and 0 whatever the curve, and the time grows by dt |
| SliderReset.ResetStaysBetween | Assets/Extension/SliderResetter.cs:46-55 | over any frames the slider value stays between its start and 0 |
| SliderReset.ResetEnds | Assets/Extension/SliderResetter.cs:46-55 | with frames of at least d and resetDuration <= m*d, the reset ends at 0 within m + 1 frames |
| SliderReset.ResetFromStartEnds | Assets/Extension/SliderResetterAnimator.cs:58-73 | a reset started at time 0 always ends at 0 in bounded time |
| SliderReset.SliderResetterBehaviour.OnEndDrag | Assets/Extension/SliderResetter.cs:16-39 | at the maximum (within 0.01) the slider is locked and nothing else happens; a positive value starts the reset, run to its first yield, and sets "Reset" when there is an animator; a value at or below 0 changes nothing |
| SliderReset.SliderResetterBehaviour.Frame | Assets/Extension/SliderResetter.cs:46-55 | a running reset takes the ResetSegment step |
| SliderReset.SliderResetterAnimatorBehaviour.OnBeginDrag | Assets/Extension/SliderResetterAnimator.cs:16-20 | "Dragging" is set true on the animator, if any |
| SliderReset.SliderResetterAnimatorBehaviour.OnEndDrag | Assets/Extension/SliderResetterAnimator.cs:27-56 | "Dragging" goes false; at the maximum the slider locks and "Max" is set; else at the minimum "Zero" is set; otherwise the reset starts and "Reset" is set |
| SliderReset.SliderResetterAnimatorBehaviour.Frame | Assets/Extension/SliderResetterAnimator.cs:63-72 | a running reset takes the ResetSegment step |
| SliderAnimationController.Triggers | Assets/Extension/SliderAnimationController.cs:31-41 | both triggers are reset first; "Increase" is set iff the value grew and "Decrease" iff it shrank |
| SliderAnimationController.ValueChanged | Assets/Extension/SliderAnimationController.cs:22-47 | a change only ever appends calls to the animator, and changes nothing while animating |
| SliderAnimationController.Tick | Assets/Extension/SliderAnimationController.cs:49-54 | a frame never touches the remembered value or the animator, and a wait it leaves running was already running and is still short of animationDuration |
| SliderAnimationController.IgnoredWhileAnimating | Assets/Extension/SliderAnimationController.cs:24-25 | while animating, a change does nothing at all |
| SliderAnimationController.AcceptedChange | Assets/Extension/SliderAnimationController.cs:22-47 | a change is acted on iff not animating and it moves the value by at least minChangeThreshold; then the value is remembered, the gate closes with a fresh wait, and the new calls set "Increase" iff it grew and "Decrease" iff it shrank |
| SliderAnimationController.ValueChangedKeepsInv | Assets/Extension/SliderAnimationController.cs:22-47 | the gate is closed exactly while a wait is pending |
| SliderAnimationController.TickKeepsInv | Assets/Extension/SliderAnimationController.cs:49-54 | a frame keeps that invariant |
| SliderAnimationController.GateReopens | Assets/Extension/SliderAnimationController.cs:51-53 | with frames of at least d and animationDuration <= m*d, the gate reopens within m frames, keeping the remembered value |
| SliderAnimationController.TicksOfOpen | Assets/Extension/SliderAnimationController.cs:49-54 | frames leave an open gate as it is |
| SliderAnimationController.SliderAnimatorController.Start | Assets/Extension/SliderAnimationController.cs:16-20 | the slider's value is remembered |
| SliderAnimationController.SliderAnimatorController.OnSliderValueChanged | Assets/Extension/SliderAnimationController.cs:22-47 | the gate takes the ValueChanged step and keeps its invariant |
| SliderAnimationController.SliderAnimatorController.Frame | Assets/Extension/SliderAnimationController.cs:49-54 | the gate takes the Tick step and keeps its invariant |
| SliderToAnimatorSnapBack.Moved | Assets/Extension/SliderToAnimatorSnapBack.cs:79-85 | a move adds at most one value to what the animator was sent and never rewrites what was sent before |
| SliderToAnimatorSnapBack.PointerDown | Assets/Extension/SliderToAnimatorSnapBack.cs:87-90 | pressing starts dragging and changes neither the slider nor the animator |
| SliderToAnimatorSnapBack.PointerUp | Assets/Extension/SliderToAnimatorSnapBack.cs:92-105 | a release ends dragging, sends exactly one value after the earlier ones, and leaves the slider at 0 or approximately at 1 |
| SliderToAnimatorSnapBack.ApproximatelyReflexive | Assets/Extension/SliderToAnimatorSnapBack.cs:96 | a value is approximately equal to itself |
| SliderToAnimatorSnapBack.MovesSentOnlyWhileDragging | Assets/Extension/SliderToAnimatorSnapBack.cs:79-85 | a move is forwarded to "SliderValue" iff the pointer is down, and the slider shows it either way |
| SliderToAnimatorSnapBack.DraggingKeepsInSync | Assets/Extension/SliderToAnimatorSnapBack.cs:79-85 | while dragging, the animator parameter is the slider's value after every move |
| SliderToAnimatorSnapBack.ReleaseSettles | Assets/Extension/SliderToAnimatorSnapBack.cs:92-105 | on release the slider stays if approximately at 1 and 1 is sent; otherwise it snaps to 0 and 0 is sent; either way the animator ends in sync |
| SliderToAnimatorSnapBack.ReleasedIgnoresMoves | Assets/Extension/SliderToAnimatorSnapBack.cs:79-94 | after release, moves send nothing |
| SliderToAnimatorSnapBack.SliderToAnimatorSnapBackBehaviour.Start | Assets/Extension/SliderToAnimatorSnapBack.cs:74-77 | Start replays the slider's current value through OnSliderChanged |
| SliderToAnimatorSnapBack.SliderToAnimatorSnapBackBehaviour.OnSliderChanged | Assets/Extension/SliderToAnimatorSnapBack.cs:79-85 | the value is sent iff dragging |
| SliderToAnimatorSnapBack.SliderToAnimatorSnapBackBehaviour.SliderMoved | Assets/Extension/SliderToAnimatorSnapBack.cs:79-85 | moving the slider to its current value changes nothing (onValueChanged does not fire); any other value takes the Moved step |
| SliderToAnimatorSnapBack.SliderToAnimatorSnapBackBehaviour.OnPointerDown | Assets/Extension/SliderToAnimatorSnapBack.cs:87-90 | dragging begins |
| SliderToAnimatorSnapBack.SliderToAnimatorSnapBackBehaviour.OnPointerUp | Assets/Extension/SliderToAnimatorSnapBack.cs:92-105 | the state takes the PointerUp step |
| NormalizedTime.TargetTime | Assets/Extension/AnimationSliderBinder.cs:54 | the target normalised time is in [0, 1], and is value / 100 for a value within the slider's range [0, 100] |
| NormalizedTime.TargetTimeMonotone | Assets/Extension/AnimationSliderBinderAction.cs:104 | a larger slider value never gives an earlier target time |
| NormalizedTime.TimeSegment | Assets/Extension/AnimationSliderBinder.cs:63-88 | one resumption of AnimateToNormalizedTime: the loop goes on iff elapsed < duration, with the time between the start and the target and the weight set; the final resumption lands exactly on the target |
| NormalizedTime.TimeSegmentApproaches | Assets/Extension/AnimationSliderBinder.cs:68-81 | a later resumption, after frames of any non-negative lengths, is never farther from the target |
| NormalizedTime.LerpCloser | Assets/Extension/AnimationSliderBinder.cs:71-72 | a larger clamped fraction lerps closer to the end point |
| NormalizedTime.Apply | Assets/Extension/AnimationSliderBinder.cs:74-87 | the state is enabled only around Sample: afterwards it is disabled at the new time, with that time sampled and the weight 1 when the loop set it |
| NormalizedTime.Advance | Assets/Extension/AnimationSliderBinder.cs:63-88 | a frame with no running interpolation changes nothing |
| NormalizedTime.AdvanceAll | Assets/Extension/AnimationSliderBinder.cs:63-88 | any run of frames keeps a running interpolation's elapsed time non-negative |
| NormalizedTime.Retarget | Assets/Extension/AnimationSliderBinder.cs:54-60 | the running interpolation is replaced by one from the current time, run to its first yield |
| NormalizedTime.AdvanceKeepsOnTrack | Assets/Extension/AnimationSliderBinder.cs:68-87 | every time sampled since the retarget lies between the start and the target |
| NormalizedTime.AdvanceAllKeepsOnTrack | Assets/Extension/AnimationSliderBinder.cs:68-87 | the same over any run of frames |
| NormalizedTime.RetargetOnTrack | Assets/Extension/AnimationSliderBinder.cs:49-88 | after a slider change, every sample until the next change lies between the time at the change and the slider's target |
| NormalizedTime.AdvanceAllIdle | Assets/Extension/AnimationSliderBinder.cs:57-60 | with nothing running, frames change nothing |
| NormalizedTime.AdvanceAllEnds | Assets/Extension/AnimationSliderBinder.cs:68-87 | with frames of at least d and duration <= m*d, the interpolation ends within m - i + 1 frames, disabled and exactly at its target, which is the last sample |
| NormalizedTime.RetargetSettles | Assets/Extension/AnimationSliderBinderAction.cs:89-162 | after a slider change and m further frames the state rests exactly at the slider's target time |
| AnimationSliderBinder.InitComplaint | Assets/Extension/AnimationSliderBinder.cs:33-44 | the complaint is "animation or clip missing" iff either is missing, and "state not found" otherwise |
| AnimationSliderBinder.AnimationSliderBinderBehaviour.constructor | Assets/Extension/AnimationSliderBinder.cs:21-29 | Awake sets the range to [0, 100] and initialises, complaining when the binding is impossible |
| AnimationSliderBinder.AnimationSliderBinderBehaviour.Initialize | Assets/Extension/AnimationSliderBinder.cs:31-47 | initialised, with a state, iff the animation, its clip and its state exist; otherwise one complaint |
| AnimationSliderBinder.AnimationSliderBinderBehaviour.OnSliderChanged | Assets/Extension/AnimationSliderBinder.cs:49-61 | without a state the retried Initialize complains again and nothing else changes; with one the interpolation is retargeted to the new value |
| AnimationSliderBinder.AnimationSliderBinderBehaviour.Frame | Assets/Extension/AnimationSliderBinder.cs:63-88 | the playback takes the Advance step |
| AnimationSliderBinderAction.Register | Assets/Extension/AnimationSliderBinderAction.cs:70-83 | registering a clip on one Animation adds its name there and nowhere else, and AddClip is called iff the clip is set and not yet there |
| AnimationSliderBinderAction.RegisterAddsFresh | Assets/Extension/AnimationSliderBinderAction.cs:70-83 | every AddClip is for a name that was absent, and no name is added twice |
| AnimationSliderBinderAction.Init | Assets/Extension/AnimationSliderBinderAction.cs:41-87 | afterwards the behaviour is initialized iff it was or there is a target with a clip; states are only ever added on either animation; at most one complaint is appended |
| AnimationSliderBinderAction.InitRegisters | Assets/Extension/AnimationSliderBinderAction.cs:41-87 | with a target and a clip, Initialize succeeds with a state, registers the clip and the increase and decrease clips on the target (and those two on the other Animation when present), only adding absent names |
| AnimationSliderBinderAction.InitOutcome | Assets/Extension/AnimationSliderBinderAction.cs:41-87 | initialisation succeeds iff there is a target with a clip; a missing target or clip is one complaint and nothing else; a second successful call changes nothing |
| AnimationSliderBinderAction.PlayAnimation | Assets/Extension/AnimationSliderBinderAction.cs:112-136 | the increase (decrease) clip plays exactly when it and the other animation are assigned, and otherwise the matching not-playable warning is logged |
| AnimationSliderBinderAction.DirectionCue | Assets/Extension/AnimationSliderBinderAction.cs:94-136 | a rise plays the increase clip on the other Animation iff both are set, and warns "increase not playable" otherwise; a fall or no change does the same with the decrease clip |
| AnimationSliderBinderAction.PlayedIsRegistered | Assets/Extension/AnimationSliderBinderAction.cs:79-130 | once initialised, any clip played on the other Animation was registered there |
| AnimationSliderBinderAction.AnimationSliderBinderActionBehaviour.constructor | Assets/Extension/AnimationSliderBinderAction.cs:31-39 | Awake sets the range to [0, 100] and runs Initialize |
| AnimationSliderBinderAction.AnimationSliderBinderActionBehaviour.AddClipIfAbsent | Assets/Extension/AnimationSliderBinderAction.cs:70-83 | the registry takes the Register step |
| AnimationSliderBinderAction.AnimationSliderBinderActionBehaviour.Initialize | Assets/Extension/AnimationSliderBinderAction.cs:41-87 | the registry takes the Init step; a fresh success leaves every clip ready |
| AnimationSliderBinderAction.AnimationSliderBinderActionBehaviour.OnSliderChanged | Assets/Extension/AnimationSliderBinderAction.cs:89-110 | Initialize is retried; without a state nothing else changes; with one the direction cue plays or warns, the value is remembered and the interpolation is retargeted |
| AnimationSliderBinderAction.AnimationSliderBinderActionBehaviour.Respond | Assets/Extension/AnimationSliderBinderAction.cs:94-109 | the direction cue is played or warned, the value remembered and the interpolation retargeted |
| AnimationSliderBinderAction.AnimationSliderBinderActionBehaviour.RestartInterpolation | Assets/Extension/AnimationSliderBinderAction.cs:104-109 | the interpolation is retargeted to the value |
| AnimationSliderBinderAction.AnimationSliderBinderActionBehaviour.PlayIncreaseAnimation | Assets/Extension/AnimationSliderBinderAction.cs:112-123 | the increase clip plays when it and the other Animation are set, and a warning is logged otherwise |
| AnimationSliderBinderAction.AnimationSliderBinderActionBehaviour.PlayDecreaseAnimation | Assets/Extension/AnimationSliderBinderAction.cs:125-136 | the decrease clip plays when it and the other Animation are set, and a warning is logged otherwise |
| AnimationSliderBinderAction.AnimationSliderBinderActionBehaviour.Frame | Assets/Extension/AnimationSliderBinderAction.cs:138-162 | the playback takes the Advance step |
| CardFanEffect.DirectChildrenExact | Assets/Extension/CardFanEffect.cs:72-80 | a node is a card iff it is under the panel and parented directly to it |
| CardFanEffect.Spread | Assets/Extension/CardFanEffect.cs:87-113 | a single card sits at -width/2; of several, card i's offset times (count - 1) is (i - (count - 1)/2) times width, so offsets grow with the distance from the middle index |
| CardFanEffect.TargetZ | Assets/Extension/CardFanEffect.cs:120 | facing the centre, the card's z turn cancels its fan angle; otherwise it is 0 |
| CardFanEffect.FoldDelay | Assets/Extension/CardFanEffect.cs:149 | never negative for a non-negative perCardDelay; 0 without sequential delay and for the first card |
| CardFanEffect.UnfoldDelay | Assets/Extension/CardFanEffect.cs:121 | never before fanoutDelay for a non-negative perCardDelay; exactly fanoutDelay without sequential delay and for the first card |
| CardFanEffect.SpreadEnds | Assets/Extension/CardFanEffect.cs:87-109 | the first card sits at -width/2 and the last of several at +width/2, for the start spacing and the fan angle alike |
| CardFanEffect.SpreadEvenlySpaced | Assets/Extension/CardFanEffect.cs:87-113 | neighbouring cards are width / (count - 1) apart |
| CardFanEffect.SpreadSymmetric | Assets/Extension/CardFanEffect.cs:87-113 | card i mirrors card count-1-i about 0 |
| CardFanEffect.SpreadMonotone | Assets/Extension/CardFanEffect.cs:94-113 | with a non-negative width, later cards never come before earlier ones |
| CardFanEffect.DelaysStagger | Assets/Extension/CardFanEffect.cs:121-149 | unfolding waits exactly fanoutDelay longer than folding, card for card; with a non-negative perCardDelay cards start in order; without sequential delay folding has none |
| CardFanEffect.CardFanEffectBehaviour.OnEnable | Assets/Extension/CardFanEffect.cs:60-70 | the cards are the direct children; with cards, card i is placed at (Spread(i, count, initialSpacing), 0) and the fan is folded, without them the layout and folded state stay; the plays appended are exactly PlaysOf(cards, startClipName), in card order; one Invoke of Unfold after startDelay exactly when autoUnfoldOnEnable |
| CardFanEffect.CardFanEffectBehaviour.RefreshCardList | Assets/Extension/CardFanEffect.cs:72-80 | the loop collects exactly DirectChildren, in hierarchy order |
| CardFanEffect.CardFanEffectBehaviour.ResetCardsToStartSpacing | Assets/Extension/CardFanEffect.cs:82-101 | without cards nothing changes; otherwise card i is placed at (Spread(i, count, initialSpacing), 0) and the fan is folded |
| CardFanEffect.CardFanEffectBehaviour.Unfold | Assets/Extension/CardFanEffect.cs:103-143 | without cards nothing changes; otherwise each card, in order, gets one unfold sequence with its fan angle Spread(i, count, maxAngle), its z turn (-angle when facing the centre) and its delay, and the fan is no longer folded |
| CardFanEffect.CardFanEffectBehaviour.Fold | Assets/Extension/CardFanEffect.cs:145-168 | each card, in order, gets its fold tween FoldOf(i), with delay FoldDelay(i), and the fan is folded even without cards |
| CardFanEffect.CardFanEffectBehaviour.Toggle | Assets/Extension/CardFanEffect.cs:170-174 | a folded fan gets the unfold tween UnfoldOf(i) of every card appended, an unfolded one the fold tween FoldOf(i); with cards the folded state flips, without cards it ends folded and no tween starts |
| CardFanEffect.CardFanEffectBehaviour.UnfoldStarted | Assets/Extension/CardFanEffect.cs:130 | the sequence's callback plays the unfold-start clip when the card has it |
| CardFanEffect.CardFanEffectBehaviour.OnCardUnfoldComplete | Assets/Extension/CardFanEffect.cs:138-188 | a finished unfold plays the unfold-end clip when the card has it |
| CardFanEffect.CardFanEffectBehaviour.OnCardFoldComplete | Assets/Extension/CardFanEffect.cs:154-193 | a finished fold plays the fold-end clip when the card has it |
| CardFanEffect.CardFanEffectBehaviour.PlayAnimation | Assets/Extension/CardFanEffect.cs:176-183 | an empty name or a card without that clip plays nothing; otherwise exactly that clip plays on that card |
| CardFanEffect.CardFanEffectBehaviour.PlaysOf | Assets/Extension/CardFanEffect.cs:65-66 | requesting a clip on each card plays it on exactly the cards that have it, and only for a non-empty name |
| FlyChildrenToTarget.SwapDown | Assets/Extension/FlyChildrenToTarget.cs:70 | one exchange of neighbouring spawn times, which keeps the same times |
| FlyChildrenToTarget.SortTimes | Assets/Extension/FlyChildrenToTarget.cs:70 | the spawn times end up in ascending order and are a permutation of the drawn ones |
| FlyChildrenToTarget.SpawnChild | Assets/Extension/FlyChildrenToTarget.cs:82-96 | a child spawned at the origin starts at 0 and drifts to a random point; otherwise it starts at the random point and does not drift; it takes the drawn rotation, scale and wait |
| FlyChildrenToTarget.FlyChildrenToTargetBehaviour.DestroyChildren | Assets/Extension/FlyChildrenToTarget.cs:60-63 | every existing child is destroyed and the transform is left without children |
| FlyChildrenToTarget.FlyChildrenToTargetBehaviour.DrawTimes | Assets/Extension/FlyChildrenToTarget.cs:65-69 | a new array of the first childCount drawn times |
| FlyChildrenToTarget.FlyChildrenToTargetBehaviour.SpawnChildren | Assets/Extension/FlyChildrenToTarget.cs:58-98 | old children are destroyed; a negative childCount spawns nothing; otherwise exactly childCount children spawn, the i-th from the i-th draw, every wait between them is positive, and the spawn times are the drawn times in ascending order; the children are then exactly the newly instantiated objects, none of them a former child, so a second run destroys the first run's spawns |
| FlyChildrenToTarget.FlyChildrenToTargetBehaviour.Schedule | Assets/Extension/FlyChildrenToTarget.cs:72-97 | one child per spawn time, each a freshly instantiated child of the transform, each waiting only when its time is later than the clock; with sorted non-negative times each child spawns exactly at its time |
| FlyChildrenToTarget.FlightSegment | Assets/Extension/FlyChildrenToTarget.cs:100-151 | the loop goes on iff elapsed < duration; after it the object is exactly at its end point |
| FlyChildrenToTarget.FlightSamplesUnitInterval | Assets/Extension/FlyChildrenToTarget.cs:107-137 | inside the loop the path is sampled at some t in [0, 1) |
| FlyChildrenToTarget.FlightEnds | Assets/Extension/FlyChildrenToTarget.cs:135-144 | with frames of at least d and duration <= m*d, a flight ends exactly at its end point within m - i + 1 frames |
| FlyChildrenToTarget.FlightStartsOnPath | Assets/Extension/FlyChildrenToTarget.cs:137-139 | a started flight first shows path(0) |
| FlyChildrenToTarget.Bezier | Assets/Extension/FlyChildrenToTarget.cs:138 | the curve is at the start point at t = 0 and at the end point at t = 1 |
| FlyChildrenToTarget.ControlPoint | Assets/Extension/FlyChildrenToTarget.cs:128-130 | the random shift moves the control point only in x and y; without it the control point is the start plus the configured offset |
| FlyChildrenToTarget.BezierEnds | Assets/Extension/FlyChildrenToTarget.cs:138 | the quadratic curve starts at the start point and reaches the end point at t = 1 |
| FlyChildrenToTarget.BezierInHull | Assets/Extension/FlyChildrenToTarget.cs:138 | on [0, 1] each coordinate of the curve lies within the bounds of its three control coordinates |
| FlyChildrenToTarget.FlyFromStartToTarget | Assets/Extension/FlyChildrenToTarget.cs:123-144 | the flight begins where the child is and, given enough frames, ends exactly at the target |
| FlyChildrenToTarget.Arrival | Assets/Extension/FlyChildrenToTarget.cs:146-150 | "OnArrived" is set iff the child has an Animator, and at most once |
| FlyChildrenToTarget.MoveStaysInBox | Assets/Extension/FlyChildrenToTarget.cs:100-115 | with the clamping Vector3.Lerp, the drift never leaves the box spanned by its start and its target |
| AnimationHierarchyEditor.Resized | Assets/Extension/AnimationHierarchyEditor.cs:68-75 | the new list has max(clipSize, 0) slots; slot i keeps the old clip where there was one and is null beyond the old length |
| AnimationHierarchyEditor.ResizedRoundTrip | Assets/Extension/AnimationHierarchyEditor.cs:68-75 | resizing to the current length changes nothing, and growing then shrinking back restores the list |
| AnimationHierarchyEditor.InsertAfter | Assets/Extension/AnimationHierarchyEditor.cs:103-107 | a row's "+" puts a null slot right after row i, shifting the later clips up by one and keeping the earlier ones |
| AnimationHierarchyEditor.RemoveAt | Assets/Extension/AnimationHierarchyEditor.cs:109-113 | a row's "-" drops row i, shifting the later clips down by one and keeping the earlier ones |
| AnimationHierarchyEditor.InsertThenRemove | Assets/Extension/AnimationHierarchyEditor.cs:103-113 | removing the slot just inserted after row i restores the list |
| AnimationHierarchyEditor.Bindings | Assets/Extension/AnimationHierarchyEditor.cs:219-229 | the bindings FillModel visits are exactly the curve and object-reference bindings of the non-null clips |
| AnimationHierarchyEditor.Keys | Assets/Extension/AnimationHierarchyEditor.cs:231-249 | pathsKeys is never longer than the bindings visited |
| AnimationHierarchyEditor.Filter | Assets/Extension/AnimationHierarchyEditor.cs:231-249 | paths[key] holds only bindings on that key, never more than were visited |
| AnimationHierarchyEditor.KeysMembers | Assets/Extension/AnimationHierarchyEditor.cs:231-249 | a path is in pathsKeys exactly when some visited binding has it |
| AnimationHierarchyEditor.KeysDistinct | Assets/Extension/AnimationHierarchyEditor.cs:237-246 | pathsKeys never holds a path twice |
| AnimationHierarchyEditor.KeysFirstSeen | Assets/Extension/AnimationHierarchyEditor.cs:241-246 | keys are appended in the order their paths are first met: the keys of any prefix of the bindings are a prefix of the keys |
| AnimationHierarchyEditor.FilterSpec | Assets/Extension/AnimationHierarchyEditor.cs:237-245 | paths[key] holds exactly the visited bindings on that path, and is non-empty exactly for the keys |
| AnimationHierarchyEditor.GroupedAppend | Assets/Extension/AnimationHierarchyEditor.cs:237-246 | one binding more: appended to its path's list when the path is known, otherwise a new list and a new key; the grouping invariant holds for the longer binding sequence |
| AnimationHierarchyEditor.Rebind | Assets/Extension/AnimationHierarchyEditor.cs:282-283 | a binding on oldPath moves to newPath, any other keeps its path; the property is kept |
| AnimationHierarchyEditor.RebindAll | Assets/Extension/AnimationHierarchyEditor.cs:264-288 | every binding is rebound, one for one and in order |
| AnimationHierarchyEditor.RebindClip | Assets/Extension/AnimationHierarchyEditor.cs:254-288 | a null clip stays null; a clip keeps its number of curves and references, each rebound in place |
| AnimationHierarchyEditor.RebindClips | Assets/Extension/AnimationHierarchyEditor.cs:254-288 | every clip is visited and the clip list keeps its length |
| AnimationHierarchyEditor.RebindUndo | Assets/Extension/AnimationHierarchyEditor.cs:282-283 | when no binding is on newPath yet, renaming oldPath to newPath and back restores every binding |
| AnimationHierarchyEditor.RebindKeepsOtherGroups | Assets/Extension/AnimationHierarchyEditor.cs:282-283 | a rename leaves the group of every path other than the old and the new one as it was |
| AnimationHierarchyEditor.ReplaceAll | Assets/Extension/AnimationHierarchyEditor.cs:134 | every character of the replaced path comes from the path or from the replacement text |
| AnimationHierarchyEditor.ReplaceAllLength | Assets/Extension/AnimationHierarchyEditor.cs:134 | the replaced path is longer by (|to| - |from|) for each non-overlapping occurrence of from |
| AnimationHierarchyEditor.ReplaceAllAbsent | Assets/Extension/AnimationHierarchyEditor.cs:134 | a path without an occurrence comes back unchanged |
| AnimationHierarchyEditor.ReplaceAllSelf | Assets/Extension/AnimationHierarchyEditor.cs:134 | replacing a string by itself changes nothing |
| AnimationHierarchyEditor.OccurrencesContains | Assets/Extension/AnimationHierarchyEditor.cs:129-134 | there is an occurrence to replace exactly when the Contains test passes |
| AnimationHierarchyEditor.RenameMatching | Assets/Extension/AnimationHierarchyEditor.cs:127-141 | the loop over the keys keeps the number of clips |
| AnimationHierarchyEditor.RenameMatchingSkips | Assets/Extension/AnimationHierarchyEditor.cs:129-130 | keys that do not contain the search text are skipped: with none containing it the clips are untouched |
| AnimationHierarchyEditor.RenameStepBinding | Assets/Extension/AnimationHierarchyEditor.cs:127-141 | when no key containing the search text is renamed onto a key, one more pass of the loop rebinds each binding exactly as RenamedPath over the keys so far says |
| AnimationHierarchyEditor.RenameMatchingMoves | Assets/Extension/AnimationHierarchyEditor.cs:127-141 | when no key containing the search text is renamed onto a key, after the loop every binding on a key containing it sits on ReplaceAll(key, from, to) and every other binding keeps its path, in every clip and in place |
| AnimationHierarchyEditor.AnimationHierarchyEditorWindow.constructor | Assets/Extension/AnimationHierarchyEditor.cs:32-35 | the window starts with an empty clip list and an empty model |
| AnimationHierarchyEditor.AnimationHierarchyEditorWindow.ClipSizeButtons | Assets/Extension/AnimationHierarchyEditor.cs:62-75 | "+" adds one to clipSize, "-" takes one away, and the clip list is then resized to clipSize |
| AnimationHierarchyEditor.AnimationHierarchyEditorWindow.SetClip | Assets/Extension/AnimationHierarchyEditor.cs:88-92 | the clip picked in row i's object field replaces that row and no other |
| AnimationHierarchyEditor.AnimationHierarchyEditorWindow.ResizeClips | Assets/Extension/AnimationHierarchyEditor.cs:68-75 | the loop builds exactly Resized(clips, clipSize) |
| AnimationHierarchyEditor.AnimationHierarchyEditorWindow.RowButtons | Assets/Extension/AnimationHierarchyEditor.cs:82-113 | the last pressed "+" inserts after its row, then the last pressed "-" removes its row, and clipSize follows so it stays the list's length |
| AnimationHierarchyEditor.AnimationHierarchyEditorWindow.FillModel | Assets/Extension/AnimationHierarchyEditor.cs:219-229 | afterwards pathsKeys and paths group exactly the bindings of the non-null clips, curve bindings before reference bindings, clip by clip |
| AnimationHierarchyEditor.AnimationHierarchyEditorWindow.FillModelWithCurves | Assets/Extension/AnimationHierarchyEditor.cs:231-249 | the grouping invariant is carried from the bindings seen before to those plus the new curves |
| AnimationHierarchyEditor.AnimationHierarchyEditorWindow.UpdatePath | Assets/Extension/AnimationHierarchyEditor.cs:251-306 | every binding of every clip on oldPath is moved to newPath and nothing else changes |
| AnimationHierarchyEditor.AnimationHierarchyEditorWindow.Replace | Assets/Extension/AnimationHierarchyEditor.cs:123-145 | an empty search text does nothing; otherwise each key containing it is renamed by the string replacement and the model is refilled from the renamed clips |
| WindUpRotation.StepDuration | Assets/Extension/WindUpRotation.cs:72-73 | a zero totalRotationTime gives a zero step duration, and non-negative settings a non-negative one |
| WindUpRotation.StepDurationFormula | Assets/Extension/WindUpRotation.cs:72-73 | a step takes rotationStep * totalRotationTime / 360 seconds, its share of a full turn |
| WindUpRotation.EndZ | Assets/Extension/WindUpRotation.cs:78 | a step ends exactly rotationStep past its start, forward when clockwise and backward otherwise |
| WindUpRotation.Resume | Assets/Extension/WindUpRotation.cs:62-95 | one frame of the coroutine keeps a step's elapsed time non-negative |
| WindUpRotation.BeginStep | Assets/Extension/WindUpRotation.cs:75-88 | a step starts from the current z and runs to its first yield |
| WindUpRotation.Restart | Assets/Extension/WindUpRotation.cs:41-68 | a restart gives a running coroutine in a well-formed state |
| WindUpRotation.RestartFromZero | Assets/Extension/WindUpRotation.cs:41-68 | whatever ran before, a restart leaves a running coroutine and z at 0, or already at the end of the first step from 0 when there is no delay and the step takes no time |
| WindUpRotation.TurningStaysOnStep | Assets/Extension/WindUpRotation.cs:81-91 | while turning, z stays between the step's start and end; the frame the loop ends z is exactly endZ and the pause begins; otherwise the elapsed time grows by the frame |
| WindUpRotation.PauseEndsOrRepeats | Assets/Extension/WindUpRotation.cs:91-93 | a pause that is not over keeps waiting; once over it ends the coroutine without loop and starts the next step from the current z with loop |
| WindUpRotation.Run | Assets/Extension/WindUpRotation.cs:70-95 | running frames keeps the coroutine state well formed |
| WindUpRotation.NoLoopNoSecondStep | Assets/Extension/WindUpRotation.cs:91-93 | without loop, once the pause after a step has begun z never changes again and no second step starts |
| WindUpRotation.StepFinishes | Assets/Extension/WindUpRotation.cs:81-91 | with frames of at least d and a step duration of at most m * d, a step reaches exactly endZ and begins its pause within m - i + 1 frames |
| WindUpRotation.WindUpRotationBehaviour.constructor | Assets/Extension/WindUpRotation.cs:20-24 | the component starts with no coroutine running |
| WindUpRotation.WindUpRotationBehaviour.OnEnable | Assets/Extension/WindUpRotation.cs:26-34 | Start and OnEnable restart the rotation from the beginning |
| WindUpRotation.WindUpRotationBehaviour.OnDisable | Assets/Extension/WindUpRotation.cs:36-39 | disabling stops the coroutine |
| WindUpRotation.WindUpRotationBehaviour.StartRotationFromBeginning | Assets/Extension/WindUpRotation.cs:41-46 | the old coroutine is stopped, z is reset to 0 and the new coroutine's first segment is the state Restart gives |
| WindUpRotation.WindUpRotationBehaviour.StopRotation | Assets/Extension/WindUpRotation.cs:48-55 | afterwards no coroutine is running |
| WindUpRotation.WindUpRotationBehaviour.Frame | Assets/Extension/WindUpRotation.cs:75-93 | a running coroutine advances by Resume; with none, z and the routine stay |
| ContentSizeFitterMaxWidth.FitFor | Assets/Extension/ContentSizeFitterMaxWidth.cs:23-25 | the fitter is Unconstrained exactly when the preferred width exceeds maxWidth |
| ContentSizeFitterMaxWidth.Fit | Assets/Extension/ContentSizeFitterMaxWidth.cs:21-34 | the branch leaves the mode the early assignment chose, and the laid-out width never exceeds maxWidth |
| ContentSizeFitterMaxWidth.FitCapsWidth | Assets/Extension/ContentSizeFitterMaxWidth.cs:23-33 | the early assignment and the branch agree on the mode; the laid-out width is the preferred width capped at maxWidth, so it exceeds neither; the rect width is written only when the cap applies |
| ContentSizeFitterMaxWidth.FitIdempotent | Assets/Extension/ContentSizeFitterMaxWidth.cs:21-34 | a second Update with the same preferred width changes nothing |
| ContentSizeFitterMaxWidth.Cache | Assets/Extension/ContentSizeFitterMaxWidth.cs:16-18 | a cached reference is kept when set and looked up only when null |
| ContentSizeFitterMaxWidth.CacheIdempotent | Assets/Extension/ContentSizeFitterMaxWidth.cs:14-19 | a second OnEnable with the same lookups changes nothing |
| ContentSizeFitterMaxWidth.ContentSizeFitterMaxWidthBehaviour.constructor | Assets/Extension/ContentSizeFitterMaxWidth.cs:8-12 | the three caches start null |
| ContentSizeFitterMaxWidth.ContentSizeFitterMaxWidthBehaviour.OnEnable | Assets/Extension/ContentSizeFitterMaxWidth.cs:14-19 | each of the three caches is filled from its lookup only while null |
| ContentSizeFitterMaxWidth.ContentSizeFitterMaxWidthBehaviour.OnValidate | Assets/Extension/ContentSizeFitterMaxWidth.cs:36 | OnValidate has exactly OnEnable's effect |
| ContentSizeFitterMaxWidth.ContentSizeFitterMaxWidthBehaviour.Update | Assets/Extension/ContentSizeFitterMaxWidth.cs:21-34 | the fitter mode and rect width after Update are those of Fit for the preferred width |
| CanvasInputBlocker.Block | Assets/Extension/CanvasInputBlocker.cs:18-29 | raycasts are turned off; interactable is left alone when only input is blocked and turned off otherwise |
| CanvasInputBlocker.Unblock | Assets/Extension/CanvasInputBlocker.cs:34-36 | raycasts are turned on; interactable is left alone when only input is blocked and turned on otherwise |
| CanvasInputBlocker.BlockThenUnblock | Assets/Extension/CanvasInputBlocker.cs:16-37 | a block and its release restore the group with raycasts on when only input is blocked, and leave it fully interactive otherwise; releasing twice is releasing once |
| CanvasInputBlocker.Tick | Assets/Extension/CanvasInputBlocker.cs:31-36 | a frame never adds a coroutine, and every coroutine it keeps has waited less than blockTime |
| CanvasInputBlocker.TickOutcome | Assets/Extension/CanvasInputBlocker.cs:31-36 | a frame releases the group exactly when some running wait reaches blockTime, and keeps exactly the waits that do not, each one frame further on |
| CanvasInputBlocker.EarlyRelease | Assets/Extension/CanvasInputBlocker.cs:11-36 | when the component is enabled again within blockTime, the older coroutine turns raycasts back on while the newer one is still waiting |
| CanvasInputBlocker.CanvasInputBlockerBehaviour.constructor | Assets/Extension/CanvasInputBlocker.cs:5-9 | the blocker starts with the given settings and group and no coroutine running |
| CanvasInputBlocker.CanvasInputBlockerBehaviour.OnEnable | Assets/Extension/CanvasInputBlocker.cs:11-31 | enabling blocks at once and adds a new wait after the running ones |
| CanvasInputBlocker.CanvasInputBlockerBehaviour.OnDisable | Assets/Extension/CanvasInputBlocker.cs:11-14 | deactivating the GameObject stops every wait; disabling only the component keeps them |
| CanvasInputBlocker.CanvasInputBlockerBehaviour.Frame | Assets/Extension/CanvasInputBlocker.cs:31-36 | the group and the waits after a frame are those Tick gives |

## Left out

- Rendering, layout and the tween engine are not modelled. DOTween easing curves, `LayoutRebuilder`, `InverseTransformPoint` and the Animation/Animator internals appear only through what the behaviours ask of them: targets, durations, clip names and normalized times.
- `Instantiate`, `Destroy` and `SetActive` are recorded as effects. Unity destroys objects at the end of the frame; the model removes them at once.
- The Slider's own clamping of its value to its range is an engine behaviour and is not modelled; values are taken as the Slider reports them.
- `WaitForSeconds` is modelled as frame time accumulated until it reaches the wait; sub-frame timing and `Time.timeScale` are left out.
- Unity stops a component's coroutines when its GameObject is deactivated, but not when only the component is disabled. The models stop a coroutine where the code stops it. CanvasInputBlocker, which never stops its own, models both cases.
- Scene wiring that the inspector sets once (assigned references, clips present in an Animation component) is a constant of each model, not something that changes at run time.
- SliderAnimationController: the Animator reference is taken to be assigned; a null Animator would throw in the source.
- AnimationSliderBinderAction.Register: `AddClip` is taken to succeed, so the failure branch at AnimationSliderBinderAction.cs:62 is not reachable in the model.
- SliderToAnimatorSnapBack: the canvas and slider that `Awake` creates and lays out are not modelled. The model starts from the slider it wires up.
- CardFanEffect: card positions on the arc (the sine and cosine placement), the scale tweens and `LockChildLocalTransform` are engine work. The model keeps each card's spread value, delay and the clips played. `Invoke` is recorded with its delay and not timed.
- FlyChildrenToTarget: the rotation and scale tweens of a flying child and the `WaitAndFly` wait are left out. The per-child coroutines are modelled as scheduled flights, not interleaved frames.
- FlyChildrenToTarget.SortTimes: `System.Array.Sort` is modelled by an insertion sort on the array, proved sorted and a permutation; the library's algorithm itself is not modelled.
- WindUpRotation: `GetZRotation` reads back Euler angles, which Unity normalises into [0, 360); the model reads back the z last written.
- WindUpRotation.StepDuration: a zero `totalRotationTime` gives an infinite float speed and a zero step duration; the model returns 0 directly rather than modelling float infinities.
- Strings: C# null and empty strings are both the empty sequence. `IsNullOrEmpty` checks become emptiness checks.
- Unity's approximate `Vector3 !=` is modelled as exact inequality.
- TmpNumberCounter: `ToString("N0")` is modelled with comma grouping and no culture. Unity's order of two coroutines in one frame is unspecified; the model resumes the pulse before the count.
- SnapScrollRect: the `SnapWhenStopped` coroutine (SnapScrollRect.cs:45-53) is never started in the source, so it is not modelled.
- SnapScrollRect.SnapTarget: with a zero cell step the source divides by zero in floating point and RoundToInt of the infinite or NaN quotient is an engine-defined integer; times a zero step it gives 0 (possibly -0), which the model returns directly.
- ScrollDirectionAnimator: `OnBeginDrag` and `OnEndDrag` are empty in the source and have no model.
- CenterNearestCell: the snap tween's target is the cell offset as computed. The scroll rect's own clamping of content to its bounds during the tween is an engine behaviour.
- AnimationHierarchyEditor: the GUI layout, `AnimationUtility` curve reads and writes, `Undo`, the progress bar and `AssetDatabase` batching are left out. UpdatePath is modelled by its effect on the clips' bindings: every binding on the old path moves to the new one. The source removes each binding of a clip and adds it back in the order of the path grouping, which can reorder a clip's curves; the model keeps every binding in its place.
- AnimationHierarchyEditor.Replace: during the Replace loop the source's UpdatePath reads bindings from the model cached before the loop. The model renames the clips' current bindings. The two differ only when one key's new name equals a key renamed later in the same loop; RenameMatchingMoves states the outcome when no key is renamed onto a key.
- AnimationHierarchyEditor: two curves that end on the same binding after a rename, null clips inside `UpdatePath`, `ChildPath` (walks the scene hierarchy) and the selected GameObject field are not modelled.
- ContentSizeFitterMaxWidth.ContentSizeFitterMaxWidthBehaviour.Update: requires the three caches to be filled; the source dereferences them and would throw otherwise.
- TreasureBoxController.TreasureBox.OnBoxClicked: requires `Init` to have run; before it the source dereferences an unassigned callback.
- GameController.GameControllerBehaviour.OnReplay: requires a box controller; the source would dereference null.
- CanvasInputBlocker: without `blockInputOnly`, the release sets `interactable` to true even if it was false before the block. The model states this and does not treat it as a defect.

## Findings

| source | as written | input that shows it | evidently intended | confidence | as-written member | corrected member |
|---|---|---|---|---|---|---|
| Assets/Extension/RandomSequentialActivator.cs:51-61 | with `loop` set, the do-while shuffles and runs an empty `foreach` again and again when the list has no children, never reaching a `yield` | `loop = true` and no children | the routine ends (or waits) when there is nothing to activate, instead of spinning inside one frame | not executed | RandomSequentialActivator.AsWrittenSpinsWithoutChildren | RandomSequentialActivator.StartPass |
