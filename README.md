# Landmark and manual transformation tools of a registration GUI

This project models the bookkeeping of the two interactive transformation
tools of a medical-image registration application, where a moving volume is
aligned with a fixed volume:

- **The landmark tool** (`LandmarkTransformation`, `landmark_tool.dfy`). It
  keeps two parallel point lists, `fixedPoints` and `movingPoints`, and a list
  of markers. Each marker is one sphere in one view, with its `id`, `flag`
  (fixed or moving), `renderer`, `position` and `active` flag. It also keeps
  the `activeIndex` and the combo-box mode.
  - A pick at an `activeIndex` at or past the end of a list appends a point
    and two markers. The markers are one in the volume's own view and one in
    the multi-volume view.
  - A pick before the end overwrites the point and moves that landmark's
    markers of the same flag.
  - `updateTransform` works only when both lists are non-empty. It hands the
    first `min(|fixed|, |moving|)` pairs to the solver: fixed points as
    sources, moving points as targets. A moving point first goes through
    stage `[-2]` of the stack when the stack has more than one stage. The
    tool then replaces the last stage with a landmark stage holding the
    inverse of the fitted matrix.
  - `_update` makes a marker active exactly when its id is the active index.
    It then re-places every moving marker: in the multi view through the
    stack's complete transform, in the moving view through its scaling
    transform.
- **The manual tool** (`UserTransformation`, `user_tool.dfy`). It shows the
  matrix of its stage in a 4x4 grid of line edits, flattened row-major.
  - It reads the grid back cell by cell. A cell that does not parse becomes
    0.0 and affects no other cell.
  - It replaces the last stage on every box move or text edit.
  - It lowers the render widget's update rate during the session and
    restores the saved rate at clean-up.
- **The shared state** (`Transforms`, `transforms.dfy`). Points, 4x4 matrices,
  the stages of the transform stack and the part of a render widget the tools
  touch.

The stack is used as a list: append, assignment to `[-1]` and `del [-1]`.
Each tool appends one stage when it is set up, and only ever replaces that
stage. So cancelling (deleting the last stage) gives back the stack from
before the session. Each `CancelledSession` method proves this for one
session:
- The manual tool's session has a box move and a text edit.
- The landmark tool's session has a fixed pick and a moving pick, a change of
  the active landmark, another fixed pick and a change of mode.

VTK's numerics are the fields of a `Numerics` value the landmark tool holds:
- the least-squares fit (`vtkLandmarkTransform`);
- the matrix inverse;
- `TransformPoint`;
- the world-to-volume conversion of a moving pick;
- the stack's `completeTransform` and `scalingTransform`.

The manual tool holds the `"%6.2f"` formatting and Python's `float()` as
functions (`format`, and `parse` returning `None` where `float()` raises).

Two behaviours of the code worth knowing:
- A pick appends whenever `activeIndex >= len(points)`, not only when the two
  are equal. With `activeIndex` past the end, the new fixed point lands at
  index `len(fixedPoints)` while its markers carry `activeIndex`.
  `RecordFixedPick` states both.
- `cleanUp` does not pop the tool's stage. Only `cancelTransform` does.
  `cleanUp` empties the point lists but keeps the marker objects in
  `landmarks`.

## Model

| member | source | states |
|---|---|---|
| `Transforms.Transformations.Append` | ui/transformations/LandmarkTransformationTool.py:86 | the stack gains exactly the given stage at its end |
| `Transforms.Transformations.SetLast` | ui/transformations/LandmarkTransformationTool.py:193 | `[-1] = s` keeps the length and every earlier stage and makes `s` the last |
| `Transforms.Transformations.DeleteLast` | ui/transformations/LandmarkTransformationTool.py:102 | `del [-1]` leaves exactly the stages before the last; refused on an empty stack |
| `LandmarkTransformation.ModeOf` | ui/transformations/LandmarkTransformationTool.py:175-180 | type 0, 1, 2 select RigidBody, Similarity, Affine, each if and only if; any other value sets no mode |
| `LandmarkTransformation.UpdatedStages` | ui/transformations/LandmarkTransformationTool.py:153-193 | stack length and all stages but the last unchanged; stack untouched if either list is empty; otherwise the last stage is a landmark stage holding the inverse of the fit of the matched pairs in the selected mode |
| `LandmarkTransformation.CorrespondencePairs` | ui/transformations/LandmarkTransformationTool.py:156-172 | exactly `min(len(fixed), len(moving))` pairs; the i-th source is the i-th fixed point; the i-th target is the i-th moving point, mapped through stage `[-2]` if and only if the stack has more than one stage |
| `LandmarkTransformation.UnmatchedFixedIgnored` | ui/transformations/LandmarkTransformationTool.py:158-165 | a fixed point without a moving partner changes neither solver input |
| `LandmarkTransformation.UnmatchedMovingIgnored` | ui/transformations/LandmarkTransformationTool.py:158-172 | a moving point without a fixed partner changes neither solver input |
| `LandmarkTransformation.RecomputeIdempotent` | ui/transformations/LandmarkTransformationTool.py:166-193 | refitting with unchanged points leaves the stack as the first fit left it, since the fit reads stage `[-2]` and writes only `[-1]` |
| `LandmarkTransformation.Landmark.constructor` | ui/transformations/LandmarkTransformationTool.py:338-350 | a new marker has the given id, renderer and flag, sits at the origin and is active |
| `LandmarkTransformation.Landmark.SetPosition` | ui/transformations/LandmarkTransformationTool.py:370-372 | the marker moves to the point; its active flag is kept |
| `LandmarkTransformation.LandmarkTransformationTool.constructor` | ui/transformations/LandmarkTransformationTool.py:37-49 | empty point and marker lists, active index 0, rigid-body type |
| `LandmarkTransformation.LandmarkTransformationTool.SetRenderWidgets` | ui/transformations/LandmarkTransformationTool.py:74-86 | binds the three views and appends exactly one identity landmark stage; points and markers unchanged |
| `LandmarkTransformation.LandmarkTransformationTool.CancelTransform` | ui/transformations/LandmarkTransformationTool.py:101-102 | deletes the last stage |
| `LandmarkTransformation.LandmarkTransformationTool.CleanUp` | ui/transformations/LandmarkTransformationTool.py:109-124 | both point lists become empty, the markers stay listed, the moving volume gets the stack's scaling transform, and the widgets, active index and mode stay |
| `LandmarkTransformation.LandmarkTransformationTool.UpdateLandmarksTransform` | ui/transformations/LandmarkTransformationTool.py:199-210 | each moving marker in the multi view is placed at its moving point through the complete transform; each one in the moving view through the scaling transform; every other marker and every active flag is unchanged |
| `LandmarkTransformation.LandmarkTransformationTool.Update` | ui/transformations/LandmarkTransformationTool.py:285-289 | afterwards a marker is active if and only if its id equals `activeIndex`; moving markers are re-placed as above |
| `LandmarkTransformation.LandmarkTransformationTool.SetActiveLandmark` | ui/transformations/LandmarkTransformationTool.py:136-138 | the new active index is stored, exactly the markers with that id are active, moving markers are re-placed, and the widgets, lists and mode stay |
| `LandmarkTransformation.LandmarkTransformationTool.UpdateTransform` | ui/transformations/LandmarkTransformationTool.py:149-196 | the stack becomes `UpdatedStages` of the old stack; with an empty list nothing changes; otherwise the moving volume gets the scaling transform of the new stack and the moving markers are re-placed; only the volume transform of the moving widget may change, never its update rate |
| `LandmarkTransformation.LandmarkTransformationTool.LandmarkTypeChanged` | ui/transformations/LandmarkTransformationTool.py:144-146 | stores the type and refits with the new mode over the unchanged points; the moving volume and the markers follow the refit, or stay when a list is empty; the widgets and the active index stay |
| `LandmarkTransformation.LandmarkTransformationTool.MoveActiveMarkers` | ui/transformations/LandmarkTransformationTool.py:234-236 | every marker with the active id and the given flag gets the new position; no other marker moves; no flag changes |
| `LandmarkTransformation.LandmarkTransformationTool.RecordFixedPick` | ui/transformations/LandmarkTransformationTool.py:217-237 | at or past the end: the fixed list grows by exactly the pick, and exactly two fresh fixed markers with the active id are appended (fixed view, then multi view), both at the pick and active; before the end: only element `activeIndex` changes, no marker is added, and exactly the fixed markers of that id move |
| `LandmarkTransformation.LandmarkTransformationTool.RecordMovingPick` | ui/transformations/LandmarkTransformationTool.py:259-278 | the same rule on the moving list with the converted point: on append two fresh active moving markers are appended, the moving-view one at the converted point and the multi-view one at the raw pick; on overwrite exactly the moving markers of that id move to the converted point |
| `LandmarkTransformation.LandmarkTransformationTool.PickedFixedLocation` | ui/transformations/LandmarkTransformationTool.py:212-242 | the pick is recorded as above, the stack is refitted from the new lists, fixed markers of the pick are at the pick, moving markers are re-placed, the moving volume gets the scaling transform (or is untouched while there are no moving points), and exactly the markers of the active id are active |
| `LandmarkTransformation.LandmarkTransformationTool.PickedMovingLocation` | ui/transformations/LandmarkTransformationTool.py:244-283 | the pick, converted with the volume's transform before the refit, is recorded as above; the stack is refitted; every moving marker in the moving or multi view ends at its point through that view's transform; the moving volume gets the scaling transform (or is untouched while there are no fixed points); exactly the markers of the active id are active |
| `LandmarkTransformation.CancelledSession` | ui/transformations/LandmarkTransformationTool.py:74-102 | set-up, two picks, a new active landmark, another pick, a mode change and cancel leave the stack exactly as before set-up |
| `LandmarkTransformation.PickPair` | ui/transformations/LandmarkTransformationTool.py:212-283 | a fixed pick then a moving pick change at most the top stage and add only new markers |
| `LandmarkTransformation.SelectPickAndRefit` | ui/transformations/LandmarkTransformationTool.py:136-146 | selecting a landmark, picking it and changing the mode change at most the top stage |
| `UserTransformation.ParsedCells` | ui/transformations/UserTransformationTool.py:166-174 | one value per cell, in order: the parsed number, or the default where parsing fails |
| `UserTransformation.ParsedCellsAppend` | ui/transformations/UserTransformationTool.py:134-138 | parsing the four rows separately and concatenating equals parsing the sixteen cells |
| `UserTransformation.BadCellIsolated` | ui/transformations/UserTransformationTool.py:168-173 | changing one cell's text changes that cell's value and no other |
| `UserTransformation.Flatten` | ui/transformations/UserTransformationTool.py:111-119 | sixteen values with element (x, y) at `4*x + y` |
| `UserTransformation.FlattenRows` | ui/transformations/UserTransformationTool.py:116-119 | `values[0:4]`, `[4:8]`, `[8:12]`, `[12:16]` are rows 0 to 3 of the matrix |
| `UserTransformation.Unflatten` | ui/transformations/UserTransformationTool.py:138-144 | element (x, y) is value `4*x + y` |
| `UserTransformation.MatrixExtensionality` | ui/transformations/UserTransformationTool.py:141-144 | a matrix is determined by its sixteen elements |
| `UserTransformation.FlattenUnique` | ui/transformations/UserTransformationTool.py:112-115 | sixteen values holding element (x, y) at `4*x + y` are the flattening |
| `UserTransformation.UnflattenFlatten` | ui/transformations/UserTransformationTool.py:111-144 | unflatten(flatten(M)) == M |
| `UserTransformation.FlattenUnflatten` | ui/transformations/UserTransformationTool.py:111-144 | flatten(unflatten(v)) == v for every 16 values |
| `UserTransformation.FlattenMatrix` | ui/transformations/UserTransformationTool.py:111-115 | the nested loop collects element (x, y) at `4*x + y`, which is the flattening |
| `UserTransformation.MatrixOf` | ui/transformations/UserTransformationTool.py:145 | the matrix value has the elements of the 4x4 array |
| `UserTransformation.UnflattenValues` | ui/transformations/UserTransformationTool.py:139-144 | the counter loop over a fresh identity matrix sets element (x, y) to value `4*x + y`, which is the unflattening |
| `UserTransformation.UserTransformationTool.constructor` | ui/transformations/UserTransformationTool.py:28-33 | saved update rate 15; four distinct fresh rows of four cells, each showing "0.0"; no widgets yet |
| `UserTransformation.UserTransformationTool.SetRenderWidgets` | ui/transformations/UserTransformationTool.py:36-43 | saves the widget's update rate, sets it to 5, and appends exactly one identity user stage |
| `UserTransformation.UserTransformationTool.CleanUp` | ui/transformations/UserTransformationTool.py:50-58 | the widget's update rate is the saved one again |
| `UserTransformation.UserTransformationTool.CancelTransform` | ui/transformations/UserTransformationTool.py:60-62 | deletes the last stage |
| `UserTransformation.UserTransformationTool.UpdateText` | ui/transformations/UserTransformationTool.py:153-164 | needs as many values as cells; cell i shows the formatted value i |
| `UserTransformation.UserTransformationTool.TransformUpdated` | ui/transformations/UserTransformationTool.py:105-119 | cell (x, y) of the grid shows the formatted element (x, y) |
| `UserTransformation.UserTransformationTool.TransformBoxUpdated` | ui/transformations/UserTransformationTool.py:100-102 | only the last stage changes: it becomes a user stage with the box's matrix; the grid shows that matrix |
| `UserTransformation.UserTransformationTool.ReadArrayOfValues` | ui/transformations/UserTransformationTool.py:166-174 | the loop returns `ParsedCells` of the row: never fails, same length, per-cell default |
| `UserTransformation.UserTransformationTool.UpdateTransformFromText` | ui/transformations/UserTransformationTool.py:131-151 | only the last stage changes: it becomes a user stage whose row x is the parsed row x of the grid, with 0.0 for cells that do not parse |
| `UserTransformation.CancelledSession` | ui/transformations/UserTransformationTool.py:36-62 | set-up, a box move, a text edit, cancel and clean-up leave the stack and the update rate as they were |

## Left out

- VTK's numerics are uninterpreted functions. This covers the least-squares fit, its minimum point counts and degenerate configurations, the matrix inverse, `TransformPoint` and `MultiplyPoint`. Coordinates are reals, so floating-point rounding is not modelled.
- The world-to-volume conversion of a moving pick is one abstract function of the moving volume's user transform and the pick. The code inverts the volume's matrix, appends a homogeneous 0.0 and keeps three coordinates.
- `completeTransform` and `scalingTransform` are abstract functions of the stage list. Their container class is not part of this model, so nothing says how they compose the stages or whether they agree.
- The stage container is modelled as a plain list of (matrix, kind) values. Stage kinds other than user and landmark are not modelled.
- LandmarkTransformation.LandmarkTransformationTool.PickedMovingLocation: requires `activeIndex <= len(movingPoints)`. Otherwise the marker's id is past the end of `movingPoints`, and the code's own `_updateLandmarksTransform` raises IndexError in the same pick.
- LandmarkTransformation.LandmarkTransformationTool.RecordMovingPick: carries the same requirement, for the same reason.
- `activeIndex` is a natural number, so Python's negative list indexing does not arise.
- A marker's renderer is modelled as the widget object it was created for. The three widgets may be the same object, and then the multi-view case wins, as in the code.
- `Landmark.id`, `flag` and `renderer` are constants. The code writes `id` once, right after construction, with the value the constructor already gave it.
- Qt and VTK plumbing is not modelled:
  - pickers;
  - signals and slots, including the `updatedLandmarks` emit;
  - `render()` calls;
  - `StatusWidget`;
  - `CreateSphere` and `CreateCircle`;
  - adding and removing props;
  - the colours and opacity set in `Landmark.update` and `Landmark.cleanUp`;
  - `setLandmarkWidgets`;
  - `getParameterWidget` layouts and validators;
  - the box widget's `setWidget`, `setImageData`, `setTransform` and `cleanUp`;
  - `applyTransform`, which does nothing.
- The line edits are created in the tool's constructor, not in `getParameterWidget`. `getParameterWidget`'s initial `transformUpdated(completeTransform())` call is not modelled.
- The `"%6.2f"` text formatting and `float()` parsing are abstract functions. Formatting is lossy, so no text round trip is claimed.
