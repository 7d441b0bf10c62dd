# Camera, cutscenes and entity movement — a Dafny model

This project models the camera and the moving entities of a small pygame platformer.

The camera, from `camera.py`, is modelled in three parts:

- **Cutscene curves.** A recursive Bézier evaluator turns control points into a list of sampled curve points.
- **Cutscene registry.** It is built from a directory of definition files. Each cutscene is named after its file, without the directory or the extension. Hidden files are skipped.
- **Camera state machine.**
  - Manual scroll and zoom calls work only while the camera is unlocked.
  - A render batch is drawn at the current scroll and then emptied on every `update`.
  - Playing a cutscene installs a path that `update` walks one entry per frame. The camera stays locked until the update after the last entry. The path is built from fresh prefix sums, which corrects the aliasing bug described under "## Findings".

The entities come from `entity.py`:

- **`Entity.move`.** It moves an integer rectangle one axis at a time against a list of tiles. Along each axis the rectangle snaps out of every overlapping tile; the last tile in list order decides. It reports four direction flags.
- **`Entity.update`.** It zeroes the velocity on each blocked axis and queues the image on the camera.
- **`Player.update`.** One frame runs in this order:
  1. Held keys thrust, turn, or reset the pose.
  2. Each velocity component is capped at ±8.
  3. Gravity is added.
  4. The player moves against the tiles.
  5. Blocked components are zeroed.
  6. Each component decelerates by 1, snapping to 0 within 1 of rest.

Each module follows one source unit:

| module | file | models |
|---|---|---|
| `Bezier` | `bezier.dfy` | `_bezier_curve_point`, `bezier_curve` |
| `Cutscenes` | `cutscenes.dfy` | `CameraCutscene.name`, the constructor's registration loop |
| `CameraModel` | `camera.dfy` | the operations of `Camera` |
| `Entities` | `entity.dfy` | `Entity` |
| `Players` | `player.dfy` | `Player` |
| `Wrappers` | `wrappers.dfy` | `Option` and `Result` |

How the model is built:

- Code that updates objects in place is a Dafny `class` whose methods have `modifies` clauses: `Camera`, `Entity` and `Player`.
- Every state-changing method is proved against a specification function on values (`Manual`, `Updated`, `Played`, `Resolve`, `Frame`, …). Lemmas over those functions state what holds across several calls.
- Loops in the source are loops in the model, with invariants: the sampling loop, the registration loop, both passes of `move`, the normalisation and accumulation loops of `play_cutscene`, the blit loop of `update` and the event loop of `Player.update`.

Some inputs are parameters of the model:

- rounding to five decimals (`round`);
- `funcs.normalize` (`normalize`);
- sine and cosine of an angle in degrees (`sinDeg`, `cosDeg`);
- the sample count of `bezier_curve`;
- the tiles returned by the world's collision-mesh query;
- the whole-pixel step that `vel * dt` moves the rectangle by.

Each property that needs something of these parameters names that need in its `requires` clause.

## Model

| member | source | states |
|---|---|---|
| Bezier.CurvePoint | camera.py:8-11 | control points that all share a coordinate evaluate to that coordinate for every `t`, whenever rounding fixes it |
| Bezier.SinglePointIsConstant | camera.py:8-11 | one control point evaluates to its own coordinate for every `t`, unrounded |
| Bezier.TwoPointsInterpolate | camera.py:8-11 | two control points give the rounded linear interpolation `a*(1-t) + b*t` |
| Bezier.StartsAtFirstPoint | camera.py:8-11 | at `t = 0` the curve is at the first control point, whenever rounding fixes that coordinate |
| Bezier.EndsAtLastPoint | camera.py:8-11 | at `t = 1` the curve is at the last control point, whenever rounding fixes that coordinate |
| Bezier.WithinHull | camera.py:8-11 | for `t` in [0, 1] every evaluated coordinate lies within any bounds of the control coordinates, given monotone rounding that fixes the bounds (convex hull) |
| Bezier.BlendWithin | camera.py:11 | a blend of two values in [lo, hi] with a weight in [0, 1] stays in [lo, hi] |
| Bezier.Curve | camera.py:14-18 | the curve has exactly `n` samples; sample `i` is the curve at `t = i * speed`, both coordinates |
| Bezier.ConstantCurve | camera.py:14-18 | a single control point gives a curve that stays on that point |
| Bezier.BezierCurve | camera.py:14-18 | the appending loop yields the `n` samples in increasing `t`, equal to `Curve` |
| Cutscenes.LastCut | camera.py:25 | the suffix after the cut holds no separator, and the cut is at 0 or just after a separator (the last component) |
| Cutscenes.FirstCut | camera.py:25 | the prefix before the cut holds no dot, and the cut is at the end or on a dot (up to the first dot) |
| Cutscenes.CutsceneName | camera.py:25 | the name holds neither separator nor dot, starts the last path component, and stops only at a dot or at the end |
| Cutscenes.PlainNameIsKept | camera.py:25 | a file name without separator or dot is its own cutscene name |
| Cutscenes.Registry | camera.py:46-49 | every registered name holds neither a separator nor a dot |
| Cutscenes.RegistryKeys | camera.py:46-49 | a name is registered iff some non-hidden directory entry carries it |
| Cutscenes.RegistryLastWins | camera.py:46-49 | the curve stored under a name is that of the last non-hidden entry with that name |
| Cutscenes.LoadCutscenes | camera.py:46-49 | the registration loop builds exactly the registry, and no key holds a separator or a dot |
| CameraModel.InPlaceNormalized | camera.py:68-69 | after the rewrite, entry 0 is normalised against itself and every later entry against the new entry 0; entries not yet reached are untouched |
| CameraModel.NormalizeCurve | camera.py:68-69 | the rewrite loop keeps the length and produces exactly that in-place normalisation |
| CameraModel.PrefixPath | camera.py:71-76 | entry `i` of the path is the start moved by the first `i+1` displacements |
| CameraModel.PathFollowsDeltas | camera.py:71-76 | each path entry is the previous entry (or the start) plus that step's displacement |
| CameraModel.Accumulate | camera.py:71-76 | the accumulation loop with a fresh point per entry yields the prefix-sum path |
| CameraModel.AliasedAccumulate | camera.py:71-76 | the loop as written returns the one shared scroll object in every entry, and the scroll has already moved by the sum of all displacements |
| CameraModel.TwoStepPath | camera.py:71-76 | with two displacements the path visits the start moved by the first, then by both |
| CameraModel.AliasingCounterexample | camera.py:71-76 | from scroll (0, 0) with entries (0, 0), (1, 0), both entries the loop as written returns read (1, 0) |
| CameraModel.IntendedCounterexamplePath | camera.py:71-76 | for the same input the path should read (0, 0), then (1, 0) |
| CameraModel.Played | camera.py:66-80 | playing locks and installs a cursor at the start of the corrected (prefix-sum) path, which is as long as the curve; scroll, zoom, batch and the set of names stay as they were |
| CameraModel.Advance | camera.py:52-57 | with no cursor nothing changes; zoom, batch and registry never change |
| CameraModel.Updated | camera.py:51-62 | after an update the render batch is empty |
| CameraModel.PlaybackVisitsPath | camera.py:51-57 | over the first `len(path)` updates the scroll visits the path entries in order and the lock is unchanged |
| CameraModel.PlaybackEnds | camera.py:51-57 | the update after the last entry unlocks and drops the cursor, keeping the last entry as scroll |
| CameraModel.CutsceneLocksForItsLength | camera.py:66-80 | after `play_cutscene` the camera stays locked for exactly as many updates as the curve has points, following the returned path, and the next update unlocks |
| CameraModel.Manual | camera.py:85-101 | locked: the state is unchanged; otherwise only scroll or zoom changes; zooming out at or below 0.1 is refused; centring puts the target at the screen centre |
| CameraModel.LockedIgnoresManual | camera.py:85-101 | while locked, any sequence of zoom, move_by, move_to and center calls leaves the whole state unchanged |
| CameraModel.ZoomOutRefusedAtMinimum | camera.py:85-88 | at or below 0.1, any number of zoom-out calls leaves the state unchanged |
| CameraModel.Composite | camera.py:60-61 | every batched surface is drawn at its position plus the scroll, in batch order |
| CameraModel.Camera.constructor | camera.py:33-49 | the camera starts unlocked at scroll (0, 0) and zoom 1, with no cursor, an empty batch and the registry of the visible entries |
| CameraModel.Camera.Update | camera.py:51-62 | the new state is `Updated` of the old, and the batch is drawn at the new scroll |
| CameraModel.Camera.PlayCutscene | camera.py:66-80 | an unknown name fails with `UnknownCutscene` and changes nothing; a known one returns the played path and moves to `Played` |
| CameraModel.Camera.Render | camera.py:82-83 | appends exactly one draw to the batch; nothing else changes |
| CameraModel.Camera.AdjustZoom | camera.py:85-88 | adds the delta unless locked or zooming out at or below 0.1, in which case the zoom is unchanged |
| CameraModel.Camera.MoveBy | camera.py:90-93 | shifts the scroll by the delta unless locked |
| CameraModel.Camera.MoveTo | camera.py:95-97 | sets the scroll to the first two components unless locked |
| CameraModel.Camera.Center | camera.py:99-101 | unless locked, the scroll puts the target at the screen centre |
| CameraModel.Camera.Lock | camera.py:103-104 | sets the lock; nothing else changes |
| CameraModel.Camera.Unlock | camera.py:106-107 | clears the lock; nothing else changes |
| Entities.CollidesSymmetric | entity.py:35 | `colliderect` overlap is symmetric in its two rectangles |
| Entities.TouchingEdgesDoNotCollide | entity.py:35 | rectangles that only share an edge do not collide |
| Entities.Colliding | entity.py:35 | a tile is in the overlap list iff it is in the tile list and overlaps the rectangle |
| Entities.LastHitIsLastColliding | entity.py:35-42 | the last entry of the overlap list is a tile after which no tile in the list overlaps |
| Entities.NothingHit | entity.py:35 | when no tile overlaps, the overlap list is empty |
| Entities.ResolveX | entity.py:35-42 | the X loop snaps against the last overlapping tile's facing edge, and sets `left`/`right` exactly when moving that way into some tile |
| Entities.ResolveY | entity.py:44-51 | the Y loop snaps against the last overlapping tile's facing edge, and sets `up`/`down` exactly when moving that way into some tile |
| Entities.Resolve | entity.py:31-54 | the size never changes, and the final X is the X pass's result (the Y pass leaves it alone) |
| Entities.FlagsPerAxis | entity.py:31-54 | `left`/`right` are set iff moving along X into an overlapping tile, `up`/`down` likewise along Y; opposite flags are never both set |
| Entities.NoOverlapTranslates | entity.py:31-54 | when nothing overlaps after either step, the rectangle is just translated and no flag is set |
| Entities.StillAxisNeverSnaps | entity.py:36-51 | with zero velocity on an axis, that axis only takes its step and sets no flag, even when overlapping |
| Entities.SnapClearsLastTile | entity.py:36-42 | after the X pass the rectangle touches the last overlapping tile edge to edge and no longer overlaps it |
| Entities.StopsAgainstTile | entity.py:36-42 | moving right into a single tile stops with the right edge on the tile's left edge, and only `right` is set |
| Entities.RenderPos | entity.py:29 | the submitted position is whole-pixel, and plus the image size it is the footprint's centre rounded down (floor division) |
| Entities.Entity.constructor | entity.py:11-21 | the rectangle agrees with position and size, and the velocity is zero |
| Entities.Entity.Move | entity.py:31-54 | the new rectangle and flags are `Resolve` of the old rectangle, the position follows the rectangle, the displacement is final minus original, and the velocity is untouched |
| Entities.Entity.Update | entity.py:23-29 | each blocked axis's velocity is zeroed, the others are kept, and exactly one draw at the centred offset is queued on the camera |
| Players.ApplyEvent | entity.py:73-96 | events that are not held keys change nothing; the size is kept; a held RETURN resets to the origin pose, and only it moves the body; only SPACE or RETURN changes the velocity, only A, D or RETURN changes the heading, so any other held key changes nothing |
| Players.ApplyEvents | entity.py:72-96 | the rectangle's size never changes, and position and rectangle stay in agreement |
| Players.ApplyEventsAppend | entity.py:72-96 | handling two event lists in turn equals handling their concatenation |
| Players.OnlyHeldKeysAct | entity.py:72-73 | events other than held keys have no effect |
| Players.TurningOnlyTurns | entity.py:81-87 | a frame of held A and D keys changes only the heading, by 3 degrees times (#A − #D) |
| Players.ResetForgetsThePast | entity.py:91-96 | after a held RETURN the pose depends only on the size and on the later events |
| Players.Clamp | entity.py:98-105 | the result lies in [−8, 8], equals the input inside it, and is otherwise the nearer bound |
| Players.CappedWithGravity | entity.py:98-106 | the move uses the capped `vx` and the capped `vy` plus gravity, so `vx` lies in [−8, 8] and `vy` in [−8 + g, 8 + g]; an in-range component is kept; nothing else changes |
| Players.Decel | entity.py:117-136 | deceleration never flips the sign and never increases the magnitude; within 1 of rest it gives 0, otherwise it moves 1 toward 0 |
| Players.ComesToRest | entity.py:117-136 | with no other force, a component of magnitude at most `k` is at rest after `k` frames |
| Players.Frame | entity.py:70-136 | after a frame the rectangle keeps its size and agrees with the position, and the heading is the one after input |
| Players.FrameVelocity | entity.py:98-136 | after a frame `|vx| < 8` and, for non-negative gravity, `−8 < vy < 8 + g`; a blocked axis's component is 0 |
| Players.Player.constructor | entity.py:59-68 | the player starts at rest, heading 0, with the rectangle at its position |
| Players.Player.HandleInput | entity.py:72-96 | the event loop leaves exactly the pose `ApplyEvents` gives |
| Players.Player.CapVelocity | entity.py:98-106 | the four caps and gravity leave exactly `CappedWithGravity` of the pose |
| Players.Player.Settle | entity.py:112-136 | each blocked component is zeroed, then both decelerate |
| Players.Player.Update | entity.py:70-136 | the frame leaves exactly the pose `Frame` gives |

## Left out

- Drawing is not modelled: display fills, surface scaling by zoom, `pygame.display.flip`, animation playback and rotation, and colour keys. The batch is composited as a list of (surface handle, position) pairs.
- Particles emitted by the thrust and turn keys are not modelled, and neither are the commented-out sound effects. They do not feed back into the state.
- Reading cutscene definition files is not modelled. Each entry is given as already-parsed control points, step and sample count. As written, the reader would not work:
  - the second `data.read()` returns an empty string, so `float(...)` of it fails;
  - the first field is a flat float list rather than a list of points;
  - `CameraCutscene(file)` is called without joining the directory path.
- `funcs.normalize` is defined in `general_funcs.py`, which is not part of this model. It is the parameter `normalize`.
- Rounding to five decimals, and sine and cosine in degrees, depend on binary floating point. They are parameters of the model. `Bezier.StartsAtFirstPoint`, `Bezier.EndsAtLastPoint` and `Bezier.WithinHull` state only what they need of `round`.
- Bezier.Curve: the sample count `int((1 + speed*2) // speed)` is computed in floating point in the source; here it is a parameter `n`.
- Entities.Entity.Move: the source converts `vel * dt` to whole pixels through pygame's `Rect` attribute assignment. The model takes the resulting whole-pixel steps as the parameters `stepX` and `stepY`. The frame time `dt` is not modelled.
- Entities.Collides: pygame treats zero-size rectangles as never colliding; the model uses the plain overlap test and does not special-case them.
- The world's collision-mesh query, which selects tiles near the entity's corners, is the parameter `tiles`.
- Cutscenes.BaseName: only the POSIX separator `/` is modelled.
- CameraModel.Camera.MoveTo: requires at least two components. In the source, a shorter `pos` would make the scroll a shorter list, which a two-coordinate `Point` cannot hold.
- CameraModel.Camera.PlayCutscene: the list returned to callers is a copy of the path, so a caller mutating it is not modelled.
- CameraModel.Camera.AdjustZoom: in the source, the instance attribute `self.zoom = 1.0` shadows the `zoom` method, so on an instance the method cannot be reached. The model gives the method its own name so that its behaviour can be stated.
- CameraModel.Manual: `zoom` refuses a negative delta only once the zoom is already at or below 0.1, so a large negative delta from above 0.1 can take the zoom below 0.1. The model keeps this.
- Entities.RenderPos: `Entity.update` subtracts the full image width and height from the footprint centre, and the model does the same.
- CameraModel.InPlaceNormalized: `play_cutscene` rewrites the curve in place, so later points are normalised against the already-rewritten first point. The model does the same.
- CameraModel.Camera.PlayCutscene: the class builds the path from fresh prefix sums, the corrected behaviour of the finding below. As written, `last_point` is the scroll list itself: `play_cutscene` already moves the scroll to the path's end, and every `update` re-assigns that same object, so the scroll never walks the path. In the model, by contrast, playing leaves the scroll where it is and the updates walk the path entry by entry (`CameraModel.Played`, `CameraModel.PlaybackVisitsPath`, `CameraModel.CutsceneLocksForItsLength`). The as-written behaviour is modelled separately by `CameraModel.AliasedAccumulate`.
- Bezier.Curve: an empty control-point list makes `_bezier_curve_point` recurse until Python raises `RecursionError`. `Bezier.CurvePoint` and `Bezier.Curve` require at least one control point whenever a sample is taken, so this error path is not modelled.
- The debug reset on RETURN stays always-on, as in the code.
- Integer widths are not modelled. Positions are unbounded integers and velocities are reals.

## Findings

| source | as written | input that shows it | evidently intended | confidence | as-written member | corrected member |
|---|---|---|---|---|---|---|
| camera.py:71-76 | `last_point = self.scroll` aliases the camera's scroll list; each iteration adds into it and appends that same list, so every returned entry is one object holding the path's end, and the scroll jumps there at once | scroll (0, 0), normalised entries (0, 0) and (1, 0): both entries read (1, 0) | a fresh point per entry: the prefix sums (0, 0), (1, 0) from the current scroll, walked one entry per update | not executed | CameraModel.AliasingCounterexample | CameraModel.Accumulate |
