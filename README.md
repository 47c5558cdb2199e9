# RoboViz statistics, ball estimation and live-director model

This project models the parts of the RoboViz viewer that turn the simulator's ball and agent
positions into game statistics and camera decisions. It then proves properties of that model.

- **Statistics parser** (`statistics_parser.dfy`, module `Statistics`). It covers four things.
  - The registry: one list per statistic type, keyed by the type's name. It drops a new
    statistic when an entry of the same type, team and agent lies less than 2.0 s away.
  - The statistics read from play-mode and foul messages, and the listener notifications they
    raise.
  - The statistics cycle of `calculateStatistics`:
    - the possession graph of `parseStatistics`;
    - the rate-limited closest-agent scan of `detectPossession`;
    - the ball heat map of `storePositions`;
    - the delta bookkeeping.
  - The dribble touch counter of `detectDrible`.
  The class `StatisticsParser` holds the source's fields. Each of its methods is proved
  against a pure function over a `Tracker` or `ParseState` value. The lemmas about those
  functions state what the source promises.
- **Ball estimator** (`ball_estimator.dfy`, modules `BallEstimation` and `Estimator`). It covers:
  - the newest-first buffer of at most six ball samples;
  - the one-pass choice of the references three, four and five vision cycles back;
  - the sticky "away" reference;
  - the closed-form estimates of velocity, position, resting position and time to roll a
    distance, under exponential friction with `k = -1.05719`.
  The three families `estimatedX`, `estimatedX4` and `estimatedX5` are one function each,
  taking the reference as a parameter.
- **Live director camera** (`live_director_camera.dfy`, module `LiveDirector`). It covers:
  - the shot type and its "changed" flag;
  - when `setEnabled` and `update` snap the camera to a preset;
  - which feed `update` runs;
  - the goal-kick, play-on, dribble and clock callbacks, including the ten-second dribble
    debounce. The statistics listener interface declares only the goal, goal-kick,
    corner-kick and play-on callbacks, and no code in these sources raises the dribble
    callbacks, so the debounce is not reachable from the statistics parser.
- **Play-mode overlay** (`playmode_overlay.dfy`, module `PlaymodeMenu`). It covers the cursor
  that DOWN and UP move, the play mode ENTER requests, and the closing on ENTER or ESCAPE.
- **Utilities** (`matrix_util.dfy`, `math_util.dfy`). `normalizeIndex` clamps an integer.
  `normalize` maps one range onto another.
- `vectors.dfy` holds shared types:
  - `Option`;
  - the `Vec3` vector that stands in for the vector library's `Vec3f`;
  - `Elementary`, which bundles the exponential, logarithm and square root the estimates call.
    The functions are passed in as values. `Sound` lists the facts about them that the proofs
    use.

Floats are modelled as `real`. Points where the code behaves surprisingly are modelled as
the code behaves:
- **Time to roll.** `estimatedTime` returns the 1e5 sentinel only when the logarithm's
  argument is negative. When the argument is zero, the code returns the logarithm of zero
  over `k`, which is +∞. When the speed is zero, it returns the IEEE result of a division by
  zero. See `TimeToRoll` and `TimeToRollOutOfReach`.
- **Possession owner.** The possession scan starts from a squared distance of 1000 with a
  strict `<`. When no agent is that close, the owner stays null. The source's dereference
  then throws, and the handler for the null dereference skips the rest of the cycle.
  `PossessionStep` and `Cycle` model this as an aborted cycle.
- **Dribbles.** `detectDrible` only counts touches. Recording a DRIBLE statistic is commented
  out. `detectKick`, the only caller of `detectDrible`, is itself commented out.
- **Deduplication.** It uses a 2.0 s window, checked only within the list of the statistic's
  own type.

Some source behaviours are kept as explicit outcomes:
- `setEnabled(true)` before the first enabled `update` dereferences the null `cameras`. The
  placement is `Failed`.
- DOWN over an empty menu puts the cursor at -1. A following ENTER then fails with
  `NoSuchMode`.
- A menu built without a game state has null `modes`. DOWN and ENTER then give `NoModes`.
- An estimate asked for before the first `update` dereferences the null `refPos`. The
  estimate is `None`.

## Model

| member | source | states |
|---|---|---|
| Statistics.AllTypesComplete | viewer/src/main/java/rv/comm/rcssserver/StatisticsParser.java:165-168 | the registry is created with a list for every statistic type |
| Statistics.TypeNamed | viewer/src/main/java/rv/comm/rcssserver/StatisticsParser.java:25-37 | a key that names a type is that type's name |
| Statistics.KeyRoundTrip | viewer/src/main/java/rv/comm/rcssserver/StatisticsParser.java:25-37 | every type's name leads back to that type, so no two types share a list |
| Statistics.UnknownKeyHasNoType | viewer/src/main/java/rv/comm/rcssserver/StatisticsParser.java:616-619 | a string that is no type's name has no list |
| Statistics.Insert | viewer/src/main/java/rv/comm/rcssserver/StatisticsParser.java:601-613 | old entries stay in place; the statistic is appended at the end iff no entry reports the same event within 2.0 s; the event is on record afterwards; a deduplicated list stays deduplicated |
| Statistics.AddTo | viewer/src/main/java/rv/comm/rcssserver/StatisticsParser.java:599-614 | only the list under the given key changes; no key appears or disappears |
| Statistics.HasDuplicate | viewer/src/main/java/rv/comm/rcssserver/StatisticsParser.java:603-609 | the scan answers true iff some entry has the same type, team and agent and lies less than 2.0 s away |
| Statistics.CloseRepeatStoredOnce | viewer/src/main/java/rv/comm/rcssserver/StatisticsParser.java:604-605 | the same event offered twice within the window is stored once |
| Statistics.DistantRepeatStoredTwice | viewer/src/main/java/rv/comm/rcssserver/StatisticsParser.java:604-605 | the same event offered twice, 2.0 s apart or more, is stored twice, in order |
| Statistics.Tag | viewer/src/main/java/rv/comm/rcssserver/StatisticsParser.java:527-545 | each agent of a roster keeps its number and position and carries its team number |
| Statistics.ClosestSelects | viewer/src/main/java/rv/comm/rcssserver/StatisticsParser.java:527-541 | a strict-`<` scan keeps its start when nobody is closer; otherwise it ends on an agent no farther than any other and strictly closer than every agent scanned before it |
| Statistics.ClosestAppend | viewer/src/main/java/rv/comm/rcssserver/StatisticsParser.java:527-541 | scanning the left roster and then continuing over the right one is one scan over both |
| Statistics.ScanClosest | viewer/src/main/java/rv/comm/rcssserver/StatisticsParser.java:527-533 | one roster loop computes the scan's running minimum and its holder |
| Statistics.FindOwner | viewer/src/main/java/rv/comm/rcssserver/StatisticsParser.java:524-541 | the two loops, left team first, compute the possession scan over the combined roster |
| Statistics.PossessionScanOutcome | viewer/src/main/java/rv/comm/rcssserver/StatisticsParser.java:524-541 | there is no owner iff nobody is closer than 1000 (squared); otherwise the owner is the first closest agent, with its squared distance |
| Statistics.TieGoesToFirstScanned | viewer/src/main/java/rv/comm/rcssserver/StatisticsParser.java:527-541 | of two equally close agents, the one scanned first is selected, so a left agent wins a tie with a right agent |
| Statistics.FirstBelowUnique | viewer/src/main/java/rv/comm/rcssserver/StatisticsParser.java:524-541 | the selected owner is unique |
| Statistics.LeftCount | viewer/src/main/java/rv/comm/rcssserver/StatisticsParser.java:205-206 | the count of left-team entries is at most the total; it equals the total iff every entry is left; it is 0 iff none is |
| Statistics.LeftShare | viewer/src/main/java/rv/comm/rcssserver/StatisticsParser.java:208-210 | the left share times the list's length is the left team's count; it lies in [0, 1], is 1 iff every possession entry is left and 0 iff none is |
| Statistics.GraphSample | viewer/src/main/java/rv/comm/rcssserver/StatisticsParser.java:202-213 | the graph gains one point exactly when the POSSESSION list is non-empty, stamped with the current time, whose share times the list's length is the left team's count, so it lies in [0, 1] |
| Statistics.CallStatistic | viewer/src/main/java/rv/comm/rcssserver/StatisticsParser.java:250-333 | free kicks and direct free kicks both give FREE_KICK, goals give GOAL, and nothing else does |
| Statistics.PlayModeStatistic | viewer/src/main/java/rv/comm/rcssserver/StatisticsParser.java:246-334 | only the sided calls record a statistic; play on records none; left calls give team 1 and right calls team 2; a call never records POSSESSION or FOUL |
| Statistics.Draft | viewer/src/main/java/rv/comm/rcssserver/StatisticsParser.java:233-343 | a drafted statistic carries the current time; a foul takes its index, team and agent from the message; a sided call takes its type, team and index; only fouls and sided calls have a type |
| Statistics.ParseAtomsAppendOnly | viewer/src/main/java/rv/comm/rcssserver/StatisticsParser.java:227-370 | reading a message only appends: no key appears or disappears, no entry is removed or reordered, lists stay deduplicated, and notifications are only appended |
| Statistics.TimeAtomShiftsClock | viewer/src/main/java/rv/comm/rcssserver/StatisticsParser.java:236-239 | a time part moves the current time to the previous time, takes the new time and records nothing |
| Statistics.PlayOnRecordsNothing | viewer/src/main/java/rv/comm/rcssserver/StatisticsParser.java:247-363 | play on records no statistic, and the listeners are told of it |
| Statistics.FoulRecordsOffender | viewer/src/main/java/rv/comm/rcssserver/StatisticsParser.java:337-347 | a foul is offered under FOUL with the team and agent that the foul names |
| Statistics.GoalKickNotifiesSide | viewer/src/main/java/rv/comm/rcssserver/StatisticsParser.java:276-358 | a goal kick is offered under GOAL_KICK for the side it names, and the listeners receive that record |
| Statistics.CycleNeedsBothTeams | viewer/src/main/java/rv/comm/rcssserver/StatisticsParser.java:382-383 | without an agent on each side, a cycle changes nothing |
| Statistics.CycleKeepsClock | viewer/src/main/java/rv/comm/rcssserver/StatisticsParser.java:373-408 | a cycle keeps the clock and the dribble counter, and keeps the registry deduplicated with graph shares in [0, 1] |
| Statistics.CycleGraph | viewer/src/main/java/rv/comm/rcssserver/StatisticsParser.java:202-216 | with agents on both sides, the graph gains the sample exactly when 5 s have gathered |
| Statistics.CyclePossession | viewer/src/main/java/rv/comm/rcssserver/StatisticsParser.java:517-548 | before a second has gathered, owner, distance and registry are untouched; afterwards the owner is the first closest agent, the cycle aborts iff there is none, and otherwise exactly one POSSESSION statistic for the owner is offered |
| Statistics.CycleAbortSkipsTail | viewer/src/main/java/rv/comm/rcssserver/StatisticsParser.java:385-407 | an aborted cycle changes only the graph, the owner and its distance |
| Statistics.CycleAdvances | viewer/src/main/java/rv/comm/rcssserver/StatisticsParser.java:389-404 | a completed cycle remembers the owner and the grounded ball, resets the deltas whose action ran, advances every delta by the cycle time, and counts the ball in the heat map exactly when a second has gathered |
| Statistics.StatisticsParser.constructor | viewer/src/main/java/rv/comm/rcssserver/StatisticsParser.java:154-172 | every type has an empty list, the heat map is all zero, and times and deltas are zero |
| Statistics.StatisticsParser.GetStatisticList | viewer/src/main/java/rv/comm/rcssserver/StatisticsParser.java:616-619 | the list of the type the key names, deduplicated, or an empty list for any other key |
| Statistics.StatisticsParser.AddStatistic | viewer/src/main/java/rv/comm/rcssserver/StatisticsParser.java:599-614 | the registry becomes `AddTo` of the type the key names; under a key that names no type nothing is stored |
| Statistics.StatisticsParser.Record | viewer/src/main/java/rv/comm/rcssserver/StatisticsParser.java:599-614 | the registry becomes `AddTo` under the type, and the registry invariant is kept |
| Statistics.StatisticsParser.ParseStatistics | viewer/src/main/java/rv/comm/rcssserver/StatisticsParser.java:199-217 | the new state is `GraphStep` of the old one, and the invariant is kept |
| Statistics.StatisticsParser.DetectPossession | viewer/src/main/java/rv/comm/rcssserver/StatisticsParser.java:517-548 | rate-limited: before the gap nothing changes; after it, the owner and distance are the possession scan's, the call aborts iff there is no owner, and otherwise one POSSESSION statistic is offered and the delta is reset |
| Statistics.StatisticsParser.StorePositions | viewer/src/main/java/rv/comm/rcssserver/StatisticsParser.java:410-432 | exactly the clamped cell of the sample gains 1 and the sample count gains 1 when the gap is reached; every cell counts the samples stored in it |
| Statistics.StatisticsParser.CalculateStatistics | viewer/src/main/java/rv/comm/rcssserver/StatisticsParser.java:373-408 | the new state and the abort flag are `Cycle` of the old state |
| Statistics.StatisticsParser.FinishCycle | viewer/src/main/java/rv/comm/rcssserver/StatisticsParser.java:389-404 | the heat-map step followed by the delta advance |
| Statistics.StatisticsParser.AdvanceDeltas | viewer/src/main/java/rv/comm/rcssserver/StatisticsParser.java:391-404 | the grounded ball and the owner are remembered, and every delta grows by `time - prevTime` |
| Statistics.StatisticsParser.ParsePlayModeStatistics | viewer/src/main/java/rv/comm/rcssserver/StatisticsParser.java:219-371 | registry, clock and notifications become those of `ParseAtoms` over the message's parts |
| Statistics.StatisticsParser.DetectDrible | viewer/src/main/java/rv/comm/rcssserver/StatisticsParser.java:494-515 | every 2 s of advancing time, the touch count grows while the owner is unchanged and restarts at 0 when it changes; a missing owner aborts with nothing changed |
| MatrixUtil.NormalizeIndex | viewer/src/main/java/rv/util/MatrixUtil.java:27-34 | `min` below the range, `max` above it, the index inside it, and the result lies in [min, max] whenever min <= max |
| MatrixUtil.NormalizeIndexIdempotent | viewer/src/main/java/rv/util/MatrixUtil.java:27-34 | clamping twice is clamping once |
| MatrixUtil.NormalizeIndexMonotone | viewer/src/main/java/rv/util/MatrixUtil.java:27-34 | clamping never reorders two indices |
| MathUtil.Normalize | viewer/src/main/java/rv/util/MathUtil.java:5-13 | the result is the affine image: `(r - desiredMin) * width == (value - lo) * (desiredMax - desiredMin)`, with `lo` the effective lower bound |
| MathUtil.AffineAt | viewer/src/main/java/rv/util/MathUtil.java:10-12 | the slope-and-intercept form agrees with the two-point form |
| MathUtil.NormalizeMax | viewer/src/main/java/rv/util/MathUtil.java:10-12 | `observedMax` is sent to `desiredMax` |
| MathUtil.NormalizeMin | viewer/src/main/java/rv/util/MathUtil.java:10-12 | with a proper range, `observedMin` is sent to `desiredMin` |
| MathUtil.NormalizeInvertedRange | viewer/src/main/java/rv/util/MathUtil.java:7-12 | an empty or inverted observed range with a nonzero top is read as [0, observedMax], so 0 is sent to `desiredMin` |
| MathUtil.NormalizeMonotone | viewer/src/main/java/rv/util/MathUtil.java:5-13 | between increasing ranges the map is strictly increasing |
| BallEstimation.Gain | viewer/src/main/java/rv/comm/rcssserver/BallEstimator.java:89 | the friction correction has the sign of the sample interval |
| BallEstimation.VelocityAlongDisplacement | viewer/src/main/java/rv/comm/rcssserver/BallEstimator.java:89-95 | the velocity at the newest sample is the ground displacement scaled by the positive `Gain`, so it points from the older sample to the newer one and its z is 0 |
| BallEstimation.VelocityLater | viewer/src/main/java/rv/comm/rcssserver/BallEstimator.java:95 | the velocity `relTime` seconds on is the velocity at the sample scaled by `exp(k * relTime)` |
| BallEstimation.VelocityDecays | viewer/src/main/java/rv/comm/rcssserver/BallEstimator.java:89-95 | later velocities stay flat and their squared length shrinks by `exp(k t)^2` |
| BallEstimation.PositionAtReference | viewer/src/main/java/rv/comm/rcssserver/BallEstimator.java:147-156 | at relative time 0 the position estimate is the reference itself |
| BallEstimation.PositionAtRest | viewer/src/main/java/rv/comm/rcssserver/BallEstimator.java:147-156 | a ball at rest is estimated at its reference at every time |
| BallEstimation.FinalPositionAtRest | viewer/src/main/java/rv/comm/rcssserver/BallEstimator.java:220-228 | a ball at rest comes to rest where it is, at the given height |
| BallEstimation.RemainingRoll | viewer/src/main/java/rv/comm/rcssserver/BallEstimator.java:147-156 | from the estimated position the ball still rolls the decayed velocity over `-k` to its resting point |
| BallEstimation.PositionFollowsVelocity | viewer/src/main/java/rv/comm/rcssserver/BallEstimator.java:147-156 | the position estimate integrates the velocity estimate: resting point minus position equals velocity over `-k`, at every time |
| BallEstimation.Speed | viewer/src/main/java/rv/comm/rcssserver/BallEstimator.java:186 | the speed is the non-negative square root of the squared length, and 0 for the zero vector |
| BallEstimation.RollArgument | viewer/src/main/java/rv/comm/rcssserver/BallEstimator.java:188 | the logarithm's argument is `1 - d / reach`, where `reach` is the positive distance to the resting point |
| BallEstimation.TimeToRollRoundTrip | viewer/src/main/java/rv/comm/rcssserver/BallEstimator.java:184-194 | for a distance short of the resting point, the ball has rolled exactly that distance at the time answered |
| BallEstimation.TimeToRollReaches | viewer/src/main/java/rv/comm/rcssserver/BallEstimator.java:184-194 | the round trip, for every speed and distance |
| BallEstimation.TimeToRollOutOfReach | viewer/src/main/java/rv/comm/rcssserver/BallEstimator.java:188-193 | beyond the resting point the answer is the 1e5 sentinel; at it, +∞; a finite non-sentinel answer means the distance is within reach |
| BallEstimation.Push | viewer/src/main/java/rv/comm/rcssserver/BallEstimator.java:38-47 | the new sample is first and a buffer of at most six stays at most six |
| BallEstimation.PushKeepsNewest | viewer/src/main/java/rv/comm/rcssserver/BallEstimator.java:38-47 | the buffer becomes the newest six of the new sample followed by the old ones |
| BallEstimation.FirstOlderFrom | viewer/src/main/java/rv/comm/rcssserver/BallEstimator.java:54-73 | the first index whose sample is more than the gap older than the newest, or 0 iff there is none |
| BallEstimation.FirstOlderMonotone | viewer/src/main/java/rv/comm/rcssserver/BallEstimator.java:54-73 | a longer gap finds its reference no earlier in the buffer than a shorter one |
| BallEstimation.Choose | viewer/src/main/java/rv/comm/rcssserver/BallEstimator.java:50-73 | the index is reset to 0 and then set to the first sample old enough; a chosen reference is that buffered sample and time; otherwise the previous sample and time are kept |
| BallEstimation.Gap | viewer/src/main/java/rv/comm/rcssserver/BallEstimator.java:55-67 | each reference needs a positive age of 2.5, 3.5 or 4.5 vision cycles of 0.06 s |
| BallEstimation.UpdatedConsistent | viewer/src/main/java/rv/comm/rcssserver/BallEstimator.java:36-82 | an update keeps both queues equally long and at most six; `refPos`/`refTime` are the newest sample; every reference in use is a buffered sample old enough for it |
| BallEstimation.UpdatedBuffers | viewer/src/main/java/rv/comm/rcssserver/BallEstimator.java:38-77 | both queues become the newest six samples; reference indices lie in the buffer; the away reference moves to the ball iff the closest agent's squared distance is below 0.3 (an agent within about 0.55 m) and otherwise stays |
| Estimator.PickReferences | viewer/src/main/java/rv/comm/rcssserver/BallEstimator.java:51-73 | the single loop with three found-flags picks, for each reference, what `Choose` specifies |
| Estimator.BallEstimator.constructor | viewer/src/main/java/rv/comm/rcssserver/BallEstimator.java:26-35 | empty buffers, no reference in use, no away time |
| Estimator.BallEstimator.Update | viewer/src/main/java/rv/comm/rcssserver/BallEstimator.java:36-82 | the new state is `Updated` of the old one, and the estimator stays consistent |
| Estimator.BallEstimator.EstimatedVel | viewer/src/main/java/rv/comm/rcssserver/BallEstimator.java:84-96 | zero while the reference is unused; otherwise the decayed velocity from the newest sample and the buffered reference; always flat |
| Estimator.BallEstimator.EstimatedVelAway | viewer/src/main/java/rv/comm/rcssserver/BallEstimator.java:132-145 | zero when there is no away time or it is the newest sample's; otherwise the decayed velocity from the newest sample and the away reference; always flat |
| Estimator.BallEstimator.EstimatedPos | viewer/src/main/java/rv/comm/rcssserver/BallEstimator.java:147-156 | none iff there is no sample yet; keeps the newest sample's height; is the newest sample at time 0 or with no reference |
| Estimator.BallEstimator.EstimatedFinalPos | viewer/src/main/java/rv/comm/rcssserver/BallEstimator.java:220-228 | none iff there is no sample yet; keeps the newest sample's height; is the newest sample when no reference is in use |
| Estimator.BallEstimator.EstimatedFinalPosAway | viewer/src/main/java/rv/comm/rcssserver/BallEstimator.java:250-260 | none iff there is no sample yet; keeps the newest sample's height; is the current ball at that height when there is no away velocity |
| Estimator.BallEstimator.EstimatedTime | viewer/src/main/java/rv/comm/rcssserver/BallEstimator.java:184-194 | with no reference, the IEEE results of a zero speed; with a moving ball, a reachable distance is rolled exactly at the time answered |
| Estimator.BallEstimator.EstimatesAgree | viewer/src/main/java/rv/comm/rcssserver/BallEstimator.java:147-228 | for every reference and time, resting point minus position estimate equals velocity estimate over `-k` |
| LiveDirector.ChangeType | viewer/src/main/java/rv/ui/view/LiveDirectorCamera.java:363-370 | the shot becomes the one asked for, the changed flag is raised iff the shot differs, and nothing else changes |
| LiveDirector.ChangeTypeIdempotent | viewer/src/main/java/rv/ui/view/LiveDirectorCamera.java:363-370 | asking twice for a shot is asking once |
| LiveDirector.ChangeTypeToCurrent | viewer/src/main/java/rv/ui/view/LiveDirectorCamera.java:365-367 | asking for the current shot changes nothing |
| LiveDirector.Enabled | viewer/src/main/java/rv/ui/view/LiveDirectorCamera.java:84-92 | enabling selects LIVE when the game is initialised and BEFORE_LIVE otherwise; disabling touches only the flag |
| LiveDirector.EnabledPlacement | viewer/src/main/java/rv/ui/view/LiveDirectorCamera.java:87-91 | enabling places the camera at the new shot's preset, and fails while no presets exist |
| LiveDirector.Updated | viewer/src/main/java/rv/ui/view/LiveDirectorCamera.java:109-191 | a disabled update changes nothing; an enabled one builds the presets and clears the changed flag; the target becomes the ball and `initializedTarget` is set exactly when the update is enabled, the shot is LIVE, the target is not yet initialised and the game state is; no other field (shot, side, time, last dribble stop) changes |
| LiveDirector.UpdatePlacement | viewer/src/main/java/rv/ui/view/LiveDirectorCamera.java:148-151 | the camera snaps iff it is enabled and the shot changed, and it snaps to the current shot |
| LiveDirector.UpdateFeed | viewer/src/main/java/rv/ui/view/LiveDirectorCamera.java:153-161 | the live feed runs iff enabled on LIVE; the goal-kick feed iff enabled on GOAL_KICK |
| LiveDirector.UpdateSnapsOnce | viewer/src/main/java/rv/ui/view/LiveDirectorCamera.java:148-151 | a second update does not snap again |
| LiveDirector.UpdateBuildsPresets | viewer/src/main/java/rv/ui/view/LiveDirectorCamera.java:141-162 | after one enabled update, enabling again places the camera |
| LiveDirector.GoalKicked | viewer/src/main/java/rv/ui/view/LiveDirectorCamera.java:290-295 | the side becomes left iff the team is 1 and the shot turns to GOAL_KICK |
| LiveDirector.PlayedOn | viewer/src/main/java/rv/ui/view/LiveDirectorCamera.java:341-345 | the shot turns to LIVE; side and target stay |
| LiveDirector.DribbleStarted | viewer/src/main/java/rv/ui/view/LiveDirectorCamera.java:303-310 | the dribbler is followed iff more than 10 s passed since the last dribble stop; nothing else changes |
| LiveDirector.DribbleStopped | viewer/src/main/java/rv/ui/view/LiveDirectorCamera.java:313-318 | the stop time is the current time and the ball is followed again; nothing else changes |
| LiveDirector.TimeChanged | viewer/src/main/java/rv/ui/view/LiveDirectorCamera.java:358-361 | only the game time changes |
| LiveDirector.DribbleDebounce | viewer/src/main/java/rv/ui/view/LiveDirectorCamera.java:303-318 | after a stop at `stopped`, a dribble starting at `started` is followed iff `started - stopped > 10`, and otherwise the ball stays followed |
| LiveDirector.LiveDirectorCamera.constructor | viewer/src/main/java/rv/ui/view/LiveDirectorCamera.java:33-51 | disabled, BEFORE_LIVE, unchanged, nothing followed, clocks at 0, no presets |
| LiveDirector.LiveDirectorCamera.ChangeCameraType | viewer/src/main/java/rv/ui/view/LiveDirectorCamera.java:363-370 | the fields become `ChangeType` of the old state |
| LiveDirector.LiveDirectorCamera.SetEnabled | viewer/src/main/java/rv/ui/view/LiveDirectorCamera.java:84-92 | the fields become `Enabled` of the old state, and the placement is `EnabledPlacement` |
| LiveDirector.LiveDirectorCamera.Update | viewer/src/main/java/rv/ui/view/LiveDirectorCamera.java:141-162 | the fields become `Updated` of the old state; placement and feed are `UpdatePlacement` and `UpdateFeed` |
| LiveDirector.LiveDirectorCamera.GoalKickReceived | viewer/src/main/java/rv/ui/view/LiveDirectorCamera.java:290-295 | the fields become `GoalKicked` of the old state |
| LiveDirector.LiveDirectorCamera.PlayOnReceived | viewer/src/main/java/rv/ui/view/LiveDirectorCamera.java:341-345 | the fields become `PlayedOn` of the old state |
| LiveDirector.LiveDirectorCamera.DribbleStartReceived | viewer/src/main/java/rv/ui/view/LiveDirectorCamera.java:303-310 | the fields become `DribbleStarted` of the old state |
| LiveDirector.LiveDirectorCamera.DribbleStopReceived | viewer/src/main/java/rv/ui/view/LiveDirectorCamera.java:313-318 | the fields become `DribbleStopped` of the old state |
| LiveDirector.LiveDirectorCamera.GsTimeChanged | viewer/src/main/java/rv/ui/view/LiveDirectorCamera.java:358-361 | the fields become `TimeChanged` of the old state |
| PlaymodeMenu.Moved | roboviz/src/rv/ui/screens/PlaymodeOverlay.java:85-88 | DOWN gives `min(index + 1, count - 1)` and UP gives `max(index - 1, 0)`, each stated as a least or greatest bound; other keys keep the cursor |
| PlaymodeMenu.MovedInRange | roboviz/src/rv/ui/screens/PlaymodeOverlay.java:85-88 | a cursor on a mode stays on a mode |
| PlaymodeMenu.MovedAllInRange | roboviz/src/rv/ui/screens/PlaymodeOverlay.java:83-97 | starting on a mode, no key sequence takes the cursor off the menu |
| PlaymodeMenu.EmptyMenuDown | roboviz/src/rv/ui/screens/PlaymodeOverlay.java:86 | over an empty menu DOWN puts the cursor at -1 |
| PlaymodeMenu.UpUndoesDown | roboviz/src/rv/ui/screens/PlaymodeOverlay.java:85-88 | UP undoes DOWN except on the last mode, and DOWN undoes UP except on the first |
| PlaymodeMenu.PlaymodeOverlay.constructor | roboviz/src/rv/ui/screens/PlaymodeOverlay.java:42-51 | cursor on the first mode, the modes of the game state, and the screen underneath disabled |
| PlaymodeMenu.PlaymodeOverlay.KeyPressed | roboviz/src/rv/ui/screens/PlaymodeOverlay.java:83-97 | DOWN and UP move the cursor as `Moved`; ENTER requests the mode under the cursor, re-enables the screen and closes; ESCAPE only re-enables and closes; failing accesses and other keys change nothing |

## Left out

- MathUtil.Normalize: excludes an effective observed range of zero width (`observedMin >=
  observedMax == 0`), for which the source's float division gives an infinite
  or NaN slope and `normalize` returns NaN; the model states results over the reals only.
- Statistics.Tag: team numbers 1 (left) and 2 (right) stand in for the source's comparison of
  `Team.getID()` values (dribble owner, possession tag); the two agree only when the two teams'
  IDs differ, which the model assumes.
- Floating point: every float is a `real`. `Math.round`, float rounding and 32-bit overflow are
  not modelled. `storePositions` takes the rounded coordinates as inputs.
- `exp`, `log` and `sqrt` are not defined here. The estimates receive them as an `Elementary`
  value. The proofs use only the facts that `Sound` lists.
- Console output (`System.out.println` in `update`, `parsePlayModeStatistics` and
  `calculateStatistics`) is not modelled.
- Message parsing: `SExp` children, `Integer.parseInt` and `Float.parseFloat` are not modelled.
  A message arrives as a sequence of typed parts (`Atom`). The play-mode table of the game
  state is not modelled either. A mode arrives already named (`PlayMode`).
- `gsServerMessageReceived`, `initializeMaps` and `gsMeasuresAndRulesChanged` are not
  modelled. The heat map is created with its size by the constructor. Resizing after a rules
  change is not modelled.
- Statistics.StatisticsParser.CalculateStatistics: the ball velocity that
  `calculateStatistics` computes and never uses is not modelled.
- `detectKick`, `detectShot` and `storeTeamPositions` are not modelled, because their only
  calls are commented out. `detectDrible` is modelled on its own.
- Listener registration (`addListener`, `removeListener`) and dispatch to listener objects are
  not modelled. Notifications are recorded as a sequence.
- The wall-clock time in `Statistic` is not modelled. Neither are the getters
  `getBallPositions`, `getPositionsCount`, `getPossessionValuesOverTime` and
  `getMinimumDistanceToBall`, which only return fields.
- Concurrency is not modelled: `synchronized`, `CopyOnWriteArrayList` and concurrent readers.
- Exceptions are outcomes here, as described at the top.
- The estimator's reference triples (`indRefTimeN`, `refPosN`, `refTimeN`) are grouped into one
  `Ref` value per reference. The `println` at the end of `update` is not modelled.
- Camera geometry is not modelled: the presets' coordinates, lerp, projection, trigonometry,
  `scaleWithBallSpeed`, `handleLiveFeed` and `handleGoalKickFeed` beyond which feed runs, and
  `playbackSpeed`. A target is recorded by identity (`Ball` or `Agent`). The callbacks with
  empty bodies (goal, corner, kick-in, offside, foul, free kick) are not modelled.
- Overlay rendering (`render`, `keyReleased`, `keyTyped`, `setEnabled`) is not modelled. The
  network call `setPlayMode` is recorded as an entry of `requests`.
- `MatrixUtil.print2D` is console output and is not modelled.
- BallEstimation.Push: its own contract gives only the length bounds and the new first
  element. The full result is stated by `PushKeepsNewest`, so that callers of `Push` do not
  carry a quantified postcondition.
