# Coroutine animations: a model of the task scheduler

The program animates entities on a canvas with generator-based tasks. An
`Entity` holds the animatable fields `x`, `y`, `rotation` and `scale`. Four
primitive tasks each keep a time accumulator fed by the elapsed time of every
resumption:

- `delay` finishes once the accumulated time reaches its length;
- `moveTo`, `rotateTo` and `scaleTo` write `lerp(start, target,
  clamp(total / duration, 0, 1))` into their entity's fields on every
  resumption, reading `start` when they begin.

Two combinators build bigger tasks:

- `parallel` hands the same elapsed time to every child, in argument order,
  and finishes when all of them report done;
- `sequence` runs its children one after another through `yield*`.

`coroutine` primes a task once and returns a stepper that forwards each frame's
elapsed time to it.

The model is in six modules:

- `Entities` (`entities.dfy`): the `Entity` class with its four animatable
  fields, `Pose` (their value at one instant) and `World` (the pose of every
  entity a task tree may touch, read from the heap by `Snapshot`).
- `Easing` (`easing.dfy`): `lerp`, `clamp`, and the progress fraction
  `clamp(total / d, 0, 1)`.
- `Tasks` (`tasks.dfy`): each generator as a pair. A `Plan` holds the
  arguments it was created with, a move's destination as a value. A `Frame` holds where its body is suspended:
  not entered yet, waiting at a `yield` with its accumulator and start values,
  or returned. `Start`, `Next`, `Resume`, `Enter` and `SweepFrom` give the
  effect of one `next(e)` on the frame and on the world. Their contracts
  state the invariants every step keeps: a task writes only its own
  entities, reports done exactly when it has returned, and is a no-op once
  returned.
- `Runtime` (`runtime.dfy`): the same generator bodies as imperative code that
  writes `Entity` fields in place. The loop of `parallel` and the `for` loop
  of `sequence` stay loops. Every method is proved to have exactly the effect
  of its counterpart in `Tasks`, on every entity.
- `Driver` (`driver.dfy`): the `Coroutine` class, which primes a task at
  construction and advances it on each `Call`. `Drive` is the effect of a
  whole run of ticks, and `Feed` is the frame loop calling the stepper once
  per tick.
- `TaskLaws` (`task_laws.dfy`) and `Scenarios` (`scenarios.dfy`): the laws
  each task obeys over any run of ticks, and worked runs taken from the
  program's demo.

Four facts about JavaScript generators shape the model:

- A task's body does not run when the task is created. `moveTo` and the
  others read their start values on the first `next()`.
- The argument of a fresh generator's first `next(x)` is discarded. So the
  first tick a `parallel` receives only starts its children.
- `yield*` starts the next child of a sequence in the same call in which the
  previous child finished. The time that overshot the finished child is lost.
- `next()` on a finished generator reports done and does nothing. A
  `parallel` relies on this for children that finished before their
  siblings.

Two consequences of the code that are easy to miss:

- Start values are read on a task's first `next()`, not when it is built.
  `Scenarios.ChainedMoves` shows the difference: the second of two chained
  moves starts from where the first one left the entity.
- A sequence of tasks of lengths `a` and `b` is not always done once `a + b`
  has elapsed, because time overshooting a child is dropped.
  `Scenarios.OvershootDropped` feeds 600 and 400 to two delays of 500 and the
  sequence is not done.

## Model

| member | source | states |
|---|---|---|
| Entities.Entity.constructor | index.ts:8-14 | a new entity sits at (0, 0) with rotation 0 and scale 1 |
| Easing.Lerp | index.ts:25-27 | the blend is `start` at time 0 and `end` at time 1, and is constant when both ends agree |
| Easing.LerpBetween | index.ts:24-27 | for a time in [0, 1] the blend lies between its two ends |
| Easing.Clamp | index.ts:28-30 | the result never exceeds `hi`; when `lo <= hi` it lies in [lo, hi], equals `v` when `v` is in range, and is `lo` below the range and `hi` above it |
| Easing.Progress | index.ts:49 | the fraction of a task done lies in [0, 1], is 1 once the accumulated time reaches the duration, 0 before any time, and exactly `total / d` in between |
| Tasks.Start | index.ts:32-113 | the first `next()` writes no entity and leaves the body suspended in a frame its plan can hold, or returned; it is done exactly when the body returned, which only a sequence can do on its first `next()`. The start value it records is stated by `TaskLaws.StartReadsSnapshot` |
| Tasks.Enter | index.ts:107-113 | entering the children of a sequence from `i` on writes no entity, suspends inside a child at index `i` or later or returns, is done exactly when it returned, and returns when no child is left. The hand-over to the next child is stated by `TaskLaws.SequenceHandOff` |
| Tasks.Next | index.ts:32-113 | one `next(e)` writes only the task's own entities, is done exactly when the task has returned, and leaves it suspended or returned; on a fresh task it writes nothing; on a returned task it reports done and changes nothing. That `e` is discarded on a fresh task is stated by `TaskLaws.StartReadsSnapshot` and `TaskLaws.ParallelFirstTick` |
| Tasks.Resume | index.ts:32-113 | one resumption of a suspended body writes only the task's own entities and reports done exactly when the body returned |
| Tasks.SweepFrom | index.ts:97-100 | the loop of a parallel keeps the results already collected and gives every remaining child a result that is done exactly when its new frame has returned; a child that had returned stays returned; only the parallel's own entities are written. That each child gets the same `e`, in order, on the world its predecessor left is stated by `TaskLaws.SweepTwo` and `Scenarios.SweepThree` |
| Runtime.StartTask | index.ts:32-113 | running a fresh body to its first `yield` on the heap gives the frame and done flag of `Tasks.Start` |
| Runtime.EnterFrom | index.ts:109-111 | the `for` loop over the remaining children gives the result of `Tasks.Enter` |
| Runtime.NextTask | index.ts:32-113 | one `next(e)` leaves the frame, the done flag and every entity as `Tasks.Next` says |
| Runtime.ResumeTask | index.ts:32-113 | one resumption, with the accumulator update and the in-place field writes, leaves frame, flag and entities as `Tasks.Resume` says |
| Runtime.SweepTasks | index.ts:97-100 | the loop pushing each child's result leaves the results, the child frames and the entities as `Tasks.SweepFrom` says |
| Runtime.ChainTask | index.ts:109-111 | resuming the current child of a sequence, and entering the next ones when it returns, matches `Tasks.Resume` |
| Driver.Drive | index.ts:19-21 | feeding a run of ticks to a task writes only its entities, reports done exactly when it has returned, and changes nothing once it has returned |
| Driver.Coroutine.constructor | index.ts:16-18 | creating the stepper starts the task exactly once, to its first `yield`, without writing any entity |
| Driver.Coroutine.Call | index.ts:19-21 | each call resumes the task with the given elapsed time and returns its done flag; once the task is done, further calls report done and change nothing |
| Driver.Coroutine.Feed | index.ts:19-21 | calling the stepper once per tick leaves the task and the entities as `Drive` says, and returns the last done flag |
| TaskLaws.DriveConcat | index.ts:19-21 | feeding `a` and then `b` has the same effect as feeding `a + b` |
| TaskLaws.DriveAfterReturn | index.ts:19-21 | once a run has finished the task, any further ticks change neither the task nor any entity |
| TaskLaws.DelayRun | index.ts:32-41 | a running delay is done exactly when some prefix of the ticks brings its accumulator to its length or beyond, otherwise it holds the sum of the ticks; it never writes an entity |
| TaskLaws.MoveRun | index.ts:43-60 | after any run of ticks a move holds `lerp(x0, dest.x, progress)` in `x` and likewise in `y`; the run that completes it leaves the entity exactly on the destination; no other field or entity changes |
| TaskLaws.MoveWrites | index.ts:47-53 | one tick of a move writes both coordinates from its recorded start at the progress of its accumulator |
| TaskLaws.RotateRun | index.ts:62-76 | the same law for `rotation`: a linear blend with no wrapping, so any target angle is reached linearly; nothing else changes |
| TaskLaws.ScaleRun | index.ts:78-92 | the same law for `scale` alone |
| TaskLaws.InterpolationIgnoresCurrentValue | index.ts:45-53 | a resumed interpolating task writes the same value whatever the entity holds at that moment: only the recorded start value counts |
| TaskLaws.StartReadsSnapshot | index.ts:43-82 | starting `moveTo`, `rotateTo` or `scaleTo` (index.ts:45, 64, 80) records the entity's current value as its start value, with nothing accumulated |
| TaskLaws.SweepStartsFresh | index.ts:97-100 | the loop of a parallel over unstarted children only starts each of them: the elapsed time is ignored and nothing is written |
| TaskLaws.ParallelFirstTick | index.ts:94-100 | the first tick after priming leaves each child of a parallel exactly as its own start leaves it, writes nothing, and the parallel is done only if every child finished on being started |
| TaskLaws.ParallelDoneIffAllChildrenDone | index.ts:94-105 | a parallel reports done exactly when every child has returned after the tick; otherwise it keeps the children's new frames; a child that had returned is still returned |
| TaskLaws.SweepTwo | index.ts:97-100 | in a two-child parallel the second child runs on the world the first child left |
| TaskLaws.ParallelLaterWriteWins | index.ts:97-100 | when two children of a parallel move the same entity, the entity ends the tick where the later child put it |
| TaskLaws.SequenceStep | index.ts:107-113 | in a running sequence only the current child can write; the sequence is done only if that child is, and when it is the last child, exactly then |
| TaskLaws.SequenceHandOff | index.ts:109-111 | when the current child finishes, the next child is started in the same call from the world it left, so the overshooting time is not carried over |
| TaskLaws.EmptySequenceDoneAtOnce | index.ts:107-113 | an empty sequence is done on its first `next()` and has no effect |
| Scenarios.QuarterStep | index.ts:43-60 | a move from (0, 0) to (100, 0) over 1000, at tick `k + 1` of 250, is at `x = 25 (k + 1)` and done only on the fourth tick |
| Scenarios.QuarterTicks | index.ts:43-60 | driving that move through a stepper with four ticks of 250 gives `x` = 25, 50, 75, 100, `y` = 0, and done only on the fourth call |
| Scenarios.DelayThenMoveSteps | index.ts:107-113 | for `sequence(delay(500), moveTo(e, {10, 0}, 500))`, the first tick of 500 ends the delay and starts the move from where the entity stands; the second lands it on (10, 0) and finishes the sequence |
| Scenarios.DelayThenMove | index.ts:107-113 | through a stepper: after 500 the entity is unmoved and the sequence not done; after another 500 it is on (10, 0) and done |
| Scenarios.ChainedMovesFirst | index.ts:145-147 | the first leg of the demo's yellow sequence, given 1000, lands on (50, 550) and starts the second leg from there |
| Scenarios.ChainedMovesSecond | index.ts:145-147 | half-way through the second leg, the entity is half-way between (50, 550) and (750, 550) |
| Scenarios.ChainedMoves | index.ts:145-147 | through a stepper: the entity reaches the corner (50, 550) and then (400, 550), not a point interpolated from its position at creation |
| Scenarios.OvershootDropped | index.ts:107-113 | two delays of 500 in sequence fed 600 and 400 are not done, although 1000 has elapsed; one more tick finishes them |
| Scenarios.RedDanceFirstTick | index.ts:157-162 | the first tick after priming the red entity's rotate/scale/delayed-move parallel only starts its three children and writes nothing |
| Scenarios.RedDanceRotation | index.ts:157 | the rotation over 1000, given 500 twice, is at half the angle and then at the angle, done |
| Scenarios.RedDanceScale | index.ts:158 | the scale to 2 over 1000, given 500 twice, is at 1.5 and then at 2, done |
| Scenarios.RedDanceDelayedMove | index.ts:159-162 | `sequence(delay(500), moveTo(e, {300, 300}, 500))` given 500 ends the delay and starts the move; given 500 more it lands on (300, 300) |
| Scenarios.RedDanceSecondTick | index.ts:157-162 | the second tick leaves rotation and scale half-way and the move started, not done |
| Scenarios.RedDanceThirdTick | index.ts:157-162 | the third tick puts the entity on (300, 300) at the full angle and scale 2, and the parallel is done |
| Scenarios.ParallelOnOneEntity | index.ts:157-162 | through a stepper fed 250, 500, 500: the pose is unchanged, then half-way, then on every target, done only on the last call |

## Left out

- Rendering: the canvas set-up, `draw` and `clear` (index.ts:2-6, 173-188) are output only.
- The frame loop: `mainloop`, `requestAnimationFrame`, `performance.now`, the `running` flag and its `try`/`catch` (index.ts:190-213) are the external clock. They are modelled only as the run of elapsed times given to `Drive` and `Coroutine.Feed`. These accept any real ticks, negative ones included.
- `console.log` (index.ts:55, 72, 88, 168) is side output only.
- The demo choreography (index.ts:115-169): the `animations` list and the outer demo generator are not modelled. Parts of the choreography appear as scenarios. The red-entity scenario starts from a fresh entity rather than from where earlier demo steps left it.
- `Entity.color` is set by the demo but written by no task.
- Floating point: times and coordinates are reals, so rounding, `NaN` and `Infinity` are not modelled. The interpolating tasks require a duration above zero. In the source a zero duration divides 0 by 0 at index.ts:49. A negative duration is excluded too: in the source it ends on the first tick of at least that (negative) length, having written the start value back, because the clamp at index.ts:49 gives 0 for a positive total. `delay` takes any length.
- `moveTo`'s destination is taken by value. The source reads `destination.x` and `destination.y` on each resumption (index.ts:50-51), so a destination object that changes while the move runs (another `Entity`, say) redirects the move there. That is not modelled.
- Generator objects as shared references: a `Plan` is a value, and each node of a task tree owns its own frame. A single generator object passed to two combinators, or resumed from outside while a combinator also drives it, is not modelled.
- The values a generator yields (`undefined`) and the `value` field of `IteratorResult`: only the `done` flag is modelled.
