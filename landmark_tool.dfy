/**
 * The landmark transformation tool: the user picks corresponding points in
 * the fixed and the moving volume; the tool keeps the two point lists, one
 * marker per point and view, and replaces the last stage of the shared
 * transform stack with the inverse of the best-fit transform between the
 * matched points.
 *
 * The numerical work (the least-squares fit, matrix inversion, applying a
 * transform to a point, the world-to-volume conversion of a pick and the
 * composition of the stack) is VTK's and is given to the tool as a value of
 * `Numerics`.
 */
module LandmarkTransformation {
  import opened Transforms

  /** Which volume a marker's point belongs to. */
  datatype Flag = Fixed | Moving

  /** The degrees of freedom of the fit; SolverDefault when no mode is set. */
  datatype Mode = RigidBody | Similarity | Affine | SolverDefault

  /** The foreign numerics the tool calls. */
  datatype Numerics = Numerics(
    /** vtkLandmarkTransform: source landmarks, target landmarks and mode to the fitted matrix. */
    solve: (seq<Point>, seq<Point>, Mode) -> Matrix,
    /** vtkTransform.Inverse. */
    invert: Matrix -> Matrix,
    /** vtkTransform.TransformPoint. */
    transformPoint: (Matrix, Point) -> Point,
    /** A world-space pick in the coordinates of a volume with the given user transform. */
    worldToVolume: (Matrix, Point) -> Point,
    /** The stack's completeTransform(). */
    completeTransform: seq<Stage> -> Matrix,
    /** The stack's scalingTransform(). */
    scalingTransform: seq<Stage> -> Matrix)

  /** The combo-box index of `landmarkTypeChanged` to the solver mode it selects. */
  function ModeOf(landmarkTransformType: int): (mode: Mode)
    ensures mode == RigidBody <==> landmarkTransformType == 0
    ensures mode == Similarity <==> landmarkTransformType == 1
    ensures mode == Affine <==> landmarkTransformType == 2
    ensures mode == SolverDefault <==> !(0 <= landmarkTransformType <= 2)
  {
    if landmarkTransformType == 0 then RigidBody
    else if landmarkTransformType == 1 then Similarity
    else if landmarkTransformType == 2 then Affine
    else SolverDefault
  }

  function Min(a: nat, b: nat): nat
  {
    if a < b then a else b
  }

  /** The moving point as the solver sees it: through stage [-2] when there is one. */
  function SolverTarget(vtk: Numerics, stages: seq<Stage>, movingPoint: Point): Point
  {
    if |stages| > 1 then vtk.transformPoint(stages[|stages| - 2].transform, movingPoint) else movingPoint
  }

  /** The source landmarks: the fixed points that have a moving partner. */
  function SolverSources(fixed: seq<Point>, moving: seq<Point>): seq<Point>
  {
    fixed[..Min(|fixed|, |moving|)]
  }

  /** The target landmarks: the moving points that have a fixed partner, seen by the solver. */
  function SolverTargets(vtk: Numerics, fixed: seq<Point>, moving: seq<Point>, stages: seq<Stage>): seq<Point>
  {
    seq(Min(|fixed|, |moving|), i requires 0 <= i < Min(|fixed|, |moving|) => SolverTarget(vtk, stages, moving[i]))
  }

  /**
   * The stack after `updateTransform`: unchanged while either point list is
   * empty, otherwise the last stage replaced by a landmark stage holding the
   * inverse of the fit of the matched pairs.
   */
  function UpdatedStages(vtk: Numerics, stages: seq<Stage>, fixed: seq<Point>, moving: seq<Point>,
                         landmarkTransformType: int): (updated: seq<Stage>)
    requires fixed != [] && moving != [] ==> stages != []
    ensures |updated| == |stages|
    ensures forall i | 0 <= i < |stages| - 1 :: updated[i] == stages[i]
    ensures fixed == [] || moving == [] ==> updated == stages
    ensures fixed != [] && moving != [] ==>
      updated[|updated| - 1].kind == LandmarkStage &&
      updated[|updated| - 1].transform ==
        vtk.invert(vtk.solve(SolverSources(fixed, moving), SolverTargets(vtk, fixed, moving, stages), ModeOf(landmarkTransformType)))
  {
    if fixed == [] || moving == [] then stages
    else
      var fit := vtk.solve(SolverSources(fixed, moving), SolverTargets(vtk, fixed, moving, stages), ModeOf(landmarkTransformType));
      stages[..|stages| - 1] + [Stage(vtk.invert(fit), LandmarkStage)]
  }

  /**
   * The loop of `updateTransform` that fills the two vtkPoints: exactly the
   * first min(|fixed|, |moving|) pairs, the i-th fixed point with the i-th
   * moving point, the moving point mapped through stage [-2] if and only if
   * the stack holds more than one stage.
   */
  method CorrespondencePairs(vtk: Numerics, fixed: seq<Point>, moving: seq<Point>, stages: seq<Stage>)
    returns (sources: seq<Point>, targets: seq<Point>)
    ensures |sources| == |targets| == Min(|fixed|, |moving|)
    ensures forall i | 0 <= i < |sources| :: sources[i] == fixed[i]
    ensures |stages| > 1 ==> forall i | 0 <= i < |targets| :: targets[i] == vtk.transformPoint(stages[|stages| - 2].transform, moving[i])
    ensures |stages| <= 1 ==> forall i | 0 <= i < |targets| :: targets[i] == moving[i]
    ensures sources == SolverSources(fixed, moving) && targets == SolverTargets(vtk, fixed, moving, stages)
  {
    var numberOfSets := Min(|fixed|, |moving|);
    sources, targets := [], [];
    for index := 0 to numberOfSets
      invariant |sources| == |targets| == index
      invariant forall i | 0 <= i < index :: sources[i] == fixed[i]
      invariant forall i | 0 <= i < index :: targets[i] == SolverTarget(vtk, stages, moving[i])
    {
      var fixedPoint, movingPoint := fixed[index], moving[index];
      sources := sources + [fixedPoint];
      if |stages| > 1 {
        var transform := stages[|stages| - 2].transform;
        targets := targets + [vtk.transformPoint(transform, movingPoint)];
      } else {
        targets := targets + [movingPoint];
      }
    }
  }

  /** A fixed point without a moving partner does not reach the solver. */
  lemma UnmatchedFixedIgnored(vtk: Numerics, fixed: seq<Point>, moving: seq<Point>, stages: seq<Stage>, p: Point)
    requires |fixed| >= |moving|
    ensures SolverSources(fixed + [p], moving) == SolverSources(fixed, moving)
    ensures SolverTargets(vtk, fixed + [p], moving, stages) == SolverTargets(vtk, fixed, moving, stages)
  {
    assert (fixed + [p])[..|moving|] == fixed[..|moving|];
  }

  /** A moving point without a fixed partner does not reach the solver. */
  lemma UnmatchedMovingIgnored(vtk: Numerics, fixed: seq<Point>, moving: seq<Point>, stages: seq<Stage>, p: Point)
    requires |moving| >= |fixed|
    ensures SolverSources(fixed, moving + [p]) == SolverSources(fixed, moving)
    ensures SolverTargets(vtk, fixed, moving + [p], stages) == SolverTargets(vtk, fixed, moving, stages)
  {
    var before, after := SolverTargets(vtk, fixed, moving, stages), SolverTargets(vtk, fixed, moving + [p], stages);
    assert forall i | 0 <= i < |fixed| :: after[i] == SolverTarget(vtk, stages, (moving + [p])[i]) == before[i];
  }

  /**
   * Recomputing without a new pick changes nothing: the fit reads stage [-2]
   * and the points, and the update only replaces stage [-1].
   */
  lemma RecomputeIdempotent(vtk: Numerics, stages: seq<Stage>, fixed: seq<Point>, moving: seq<Point>, landmarkTransformType: int)
    requires stages != []
    ensures UpdatedStages(vtk, UpdatedStages(vtk, stages, fixed, moving, landmarkTransformType), fixed, moving, landmarkTransformType) ==
            UpdatedStages(vtk, stages, fixed, moving, landmarkTransformType)
  {
    var once := UpdatedStages(vtk, stages, fixed, moving, landmarkTransformType);
    if fixed != [] && moving != [] {
      assert |stages| > 1 ==> once[|once| - 2] == stages[|stages| - 2];
      assert SolverTargets(vtk, fixed, moving, once) == SolverTargets(vtk, fixed, moving, stages);
    }
  }

  /** One sphere-and-circle marker of one landmark point in one view. */
  class Landmark {
    const id: nat
    const flag: Flag
    const renderer: RenderWidget
    var position: Point
    var active: bool

    constructor (index: nat, renderer: RenderWidget, flag: Flag)
      ensures id == index && this.renderer == renderer && this.flag == flag
      ensures position == Origin && active
    {
      id := index;
      this.renderer := renderer;
      this.flag := flag;
      position := Origin;
      active := true;
    }

    method SetPosition(p: Point)
      modifies this
      ensures position == p && active == old(active)
    {
      position := p;
    }
  }

  class LandmarkTransformationTool {
    const vtk: Numerics

    var fixedWidget: RenderWidget?
    var movingWidget: RenderWidget?
    var multiWidget: RenderWidget?

    var fixedPoints: seq<Point>
    var movingPoints: seq<Point>
    var landmarks: seq<Landmark>
    var activeIndex: nat
    var landmarkTransformType: int

    /**
     * Every marker is its own object, and every moving marker names a point
     * of `movingPoints` (the marker refresh reads that point).
     */
    ghost predicate Consistent()
      reads this
    {
      (forall a, b | 0 <= a < b < |landmarks| :: landmarks[a] != landmarks[b]) &&
      (forall k | 0 <= k < |landmarks| :: landmarks[k].flag == Moving ==> landmarks[k].id < |movingPoints|)
    }

    /** The tool after `setRenderWidgets`. */
    ghost predicate Valid()
      reads this
    {
      fixedWidget != null && movingWidget != null && multiWidget != null && Consistent()
    }

    function Markers(): set<Landmark>
      reads this
    {
      set l | l in landmarks
    }

    /** Whether `_updateLandmarksTransform` places the marker: a moving marker in the multi or moving view. */
    predicate Refreshes(l: Landmark, movingView: RenderWidget, multiView: RenderWidget)
    {
      l.flag == Moving && (l.renderer == multiView || l.renderer == movingView)
    }

    /**
     * Where `_updateLandmarksTransform` places such a marker: its moving point
     * through the complete transform in the multi view, through the scaling
     * transform in the moving view.
     */
    function ViewPosition(l: Landmark, moving: seq<Point>, stages: seq<Stage>,
                          movingView: RenderWidget, multiView: RenderWidget): Point
      requires Refreshes(l, movingView, multiView) && l.id < |moving|
    {
      if l.renderer == multiView then vtk.transformPoint(vtk.completeTransform(stages), moving[l.id])
      else vtk.transformPoint(vtk.scalingTransform(stages), moving[l.id])
    }

    /** A marker's position after `_updateLandmarksTransform`, given its position before. */
    function RefreshedPosition(l: Landmark, current: Point, moving: seq<Point>, stages: seq<Stage>,
                               movingView: RenderWidget, multiView: RenderWidget): Point
      requires l.flag == Moving ==> l.id < |moving|
    {
      if Refreshes(l, movingView, multiView) then ViewPosition(l, moving, stages, movingView, multiView) else current
    }

    constructor (vtk: Numerics)
      ensures this.vtk == vtk && Consistent()
      ensures fixedWidget == null && movingWidget == null && multiWidget == null
      ensures fixedPoints == [] && movingPoints == [] && landmarks == []
      ensures activeIndex == 0 && landmarkTransformType == 0
    {
      this.vtk := vtk;
      fixedWidget, movingWidget, multiWidget := null, null, null;
      fixedPoints, movingPoints, landmarks := [], [], [];
      activeIndex := 0;
      landmarkTransformType := 0;
    }

    /** Binds the views and pushes the one landmark stage this tool owns. */
    method SetRenderWidgets(fixed: RenderWidget, moving: RenderWidget, multi: RenderWidget)
      requires Consistent()
      modifies this, multi.transformations
      ensures Valid()
      ensures fixedWidget == fixed && movingWidget == moving && multiWidget == multi
      ensures fixedPoints == old(fixedPoints) && movingPoints == old(movingPoints) && landmarks == old(landmarks)
      ensures activeIndex == old(activeIndex) && landmarkTransformType == old(landmarkTransformType)
      ensures multi.transformations.stages == old(multi.transformations.stages) + [Stage(Identity, LandmarkStage)]
    {
      fixedWidget, movingWidget, multiWidget := fixed, moving, multi;
      multi.transformations.Append(Stage(Identity, LandmarkStage));
    }

    /** Removes the stage this tool pushed. */
    method CancelTransform()
      requires Valid() && multiWidget.transformations.stages != []
      modifies multiWidget.transformations
      ensures multiWidget.transformations.stages == old(multiWidget.transformations.stages)[..|old(multiWidget.transformations.stages)| - 1]
    {
      multiWidget.transformations.DeleteLast();
    }

    /**
     * Forgets the points and gives the moving volume the scaling transform
     * of the stack. The markers stay in the list (only their props are
     * released), so the tool is not meant to be used afterwards.
     */
    method CleanUp()
      requires Valid()
      modifies this, movingWidget`volumeTransform
      ensures fixedPoints == [] && movingPoints == []
      ensures landmarks == old(landmarks)
      ensures fixedWidget == old(fixedWidget) && movingWidget == old(movingWidget) && multiWidget == old(multiWidget)
      ensures activeIndex == old(activeIndex) && landmarkTransformType == old(landmarkTransformType)
      ensures movingWidget.volumeTransform == vtk.scalingTransform(multiWidget.transformations.stages)
    {
      fixedPoints := [];
      movingPoints := [];
      var shearTrans := vtk.scalingTransform(multiWidget.transformations.stages);
      movingWidget.volumeTransform := shearTrans;
    }

    /** `_updateLandmarksTransform`: moves every moving marker in the moving and multi views. */
    method UpdateLandmarksTransform()
      requires Valid()
      modifies Markers()
      ensures forall k | 0 <= k < |landmarks| :: landmarks[k].active == old(landmarks[k].active)
      ensures forall k | 0 <= k < |landmarks| ::
        landmarks[k].position == RefreshedPosition(landmarks[k], old(landmarks[k].position), movingPoints,
                                                   multiWidget.transformations.stages, movingWidget, multiWidget)
    {
      for i := 0 to |landmarks|
        invariant forall k | 0 <= k < |landmarks| :: landmarks[k].active == old(landmarks[k].active)
        invariant forall k | 0 <= k < i ::
          landmarks[k].position == RefreshedPosition(landmarks[k], old(landmarks[k].position), movingPoints,
                                                     multiWidget.transformations.stages, movingWidget, multiWidget)
        invariant forall k | i <= k < |landmarks| :: landmarks[k].position == old(landmarks[k].position)
      {
        var landmark := landmarks[i];
        if landmark.flag == Moving && landmark.renderer == multiWidget {
          var transform := vtk.completeTransform(multiWidget.transformations.stages);
          var pos := movingPoints[landmark.id];
          landmark.SetPosition(vtk.transformPoint(transform, pos));
        } else if landmark.flag == Moving && landmark.renderer == movingWidget {
          var pos := movingPoints[landmark.id];
          var transform := vtk.scalingTransform(multiWidget.transformations.stages);
          landmark.SetPosition(vtk.transformPoint(transform, pos));
        }
      }
    }

    /** `_update`: a marker is active exactly when it belongs to the active landmark. */
    method Update()
      requires Valid()
      modifies Markers()
      ensures forall k | 0 <= k < |landmarks| :: landmarks[k].active == (landmarks[k].id == activeIndex)
      ensures forall k | 0 <= k < |landmarks| ::
        landmarks[k].position == RefreshedPosition(landmarks[k], old(landmarks[k].position), movingPoints,
                                                   multiWidget.transformations.stages, movingWidget, multiWidget)
    {
      for i := 0 to |landmarks|
        invariant forall k | 0 <= k < i :: landmarks[k].active == (landmarks[k].id == activeIndex)
        invariant forall k | 0 <= k < |landmarks| :: landmarks[k].position == old(landmarks[k].position)
      {
        landmarks[i].active := landmarks[i].id == activeIndex;
      }
      UpdateLandmarksTransform();
    }

    /** `setActiveLandmark`. */
    method SetActiveLandmark(index: nat)
      requires Valid()
      modifies this, Markers()
      ensures Valid() && activeIndex == index
      ensures fixedWidget == old(fixedWidget) && movingWidget == old(movingWidget) && multiWidget == old(multiWidget)
      ensures fixedPoints == old(fixedPoints) && movingPoints == old(movingPoints) && landmarks == old(landmarks)
      ensures landmarkTransformType == old(landmarkTransformType)
      ensures forall k | 0 <= k < |landmarks| :: landmarks[k].active == (landmarks[k].id == index)
      ensures forall k | 0 <= k < |landmarks| ::
        landmarks[k].position == RefreshedPosition(landmarks[k], old(landmarks[k].position), movingPoints,
                                                   multiWidget.transformations.stages, movingWidget, multiWidget)
    {
      activeIndex := index;
      Update();
    }

    /**
     * `updateTransform`: with both lists non-empty, fit the matched pairs,
     * store the inverse in the last stage, give the moving volume the
     * scaling transform and refresh the moving markers.
     */
    method UpdateTransform()
      requires Valid()
      requires fixedPoints != [] && movingPoints != [] ==> multiWidget.transformations.stages != []
      modifies multiWidget.transformations, movingWidget`volumeTransform, Markers()
      ensures multiWidget.transformations.stages ==
        UpdatedStages(vtk, old(multiWidget.transformations.stages), fixedPoints, movingPoints, landmarkTransformType)
      ensures forall k | 0 <= k < |landmarks| :: landmarks[k].active == old(landmarks[k].active)
      ensures fixedPoints == [] || movingPoints == [] ==>
        movingWidget.volumeTransform == old(movingWidget.volumeTransform) &&
        forall k | 0 <= k < |landmarks| :: landmarks[k].position == old(landmarks[k].position)
      ensures fixedPoints != [] && movingPoints != [] ==>
        movingWidget.volumeTransform == vtk.scalingTransform(multiWidget.transformations.stages) &&
        forall k | 0 <= k < |landmarks| ::
          landmarks[k].position == RefreshedPosition(landmarks[k], old(landmarks[k].position), movingPoints,
                                                     multiWidget.transformations.stages, movingWidget, multiWidget)
    {
      if |fixedPoints| == 0 || |movingPoints| == 0 {
        return;
      }
      var sources, targets := CorrespondencePairs(vtk, fixedPoints, movingPoints, multiWidget.transformations.stages);
      var matrix := vtk.solve(sources, targets, ModeOf(landmarkTransformType));
      var transform := vtk.invert(matrix);
      multiWidget.transformations.SetLast(Stage(transform, LandmarkStage));
      var shearTrans := vtk.scalingTransform(multiWidget.transformations.stages);
      movingWidget.volumeTransform := shearTrans;
      UpdateLandmarksTransform();
    }

    /** `landmarkTypeChanged`: a new mode and a fit with the points there are. */
    method LandmarkTypeChanged(value: int)
      requires Valid()
      requires fixedPoints != [] && movingPoints != [] ==> multiWidget.transformations.stages != []
      modifies this, multiWidget.transformations, movingWidget`volumeTransform, Markers()
      ensures Valid() && landmarkTransformType == value
      ensures fixedWidget == old(fixedWidget) && movingWidget == old(movingWidget) && multiWidget == old(multiWidget)
      ensures fixedPoints == old(fixedPoints) && movingPoints == old(movingPoints) && landmarks == old(landmarks)
      ensures activeIndex == old(activeIndex)
      ensures multiWidget.transformations.stages ==
        UpdatedStages(vtk, old(multiWidget.transformations.stages), fixedPoints, movingPoints, value)
      ensures forall k | 0 <= k < |landmarks| :: landmarks[k].active == old(landmarks[k].active)
      ensures fixedPoints == [] || movingPoints == [] ==>
        movingWidget.volumeTransform == old(movingWidget.volumeTransform) &&
        forall k | 0 <= k < |landmarks| :: landmarks[k].position == old(landmarks[k].position)
      ensures fixedPoints != [] && movingPoints != [] ==>
        movingWidget.volumeTransform == vtk.scalingTransform(multiWidget.transformations.stages) &&
        forall k | 0 <= k < |landmarks| ::
          landmarks[k].position == RefreshedPosition(landmarks[k], old(landmarks[k].position), movingPoints,
                                                     multiWidget.transformations.stages, movingWidget, multiWidget)
    {
      landmarkTransformType := value;
      UpdateTransform();
    }

    /** The markers of the active landmark with the given flag move to `position`. */
    method MoveActiveMarkers(flag: Flag, position: Point)
      requires Valid()
      modifies Markers()
      ensures forall k | 0 <= k < |landmarks| :: landmarks[k].active == old(landmarks[k].active)
      ensures forall k | 0 <= k < |landmarks| ::
        landmarks[k].position == if landmarks[k].id == activeIndex && landmarks[k].flag == flag then position
                                 else old(landmarks[k].position)
    {
      for i := 0 to |landmarks|
        invariant forall k | 0 <= k < |landmarks| :: landmarks[k].active == old(landmarks[k].active)
        invariant forall k | 0 <= k < i ::
          landmarks[k].position == if landmarks[k].id == activeIndex && landmarks[k].flag == flag then position
                                   else old(landmarks[k].position)
        invariant forall k | i <= k < |landmarks| :: landmarks[k].position == old(landmarks[k].position)
      {
        if landmarks[i].id == activeIndex && landmarks[i].flag == flag {
          landmarks[i].SetPosition(position);
        }
      }
    }

    /**
     * The first half of `pickedFixedLocation`: append a point and two markers
     * (fixed view and multi view) when the active index is past the end of
     * the list, otherwise overwrite the point and move its fixed markers.
     */
    method RecordFixedPick(location: Point)
      requires Valid()
      modifies this, Markers()
      ensures Valid()
      ensures fixedWidget == old(fixedWidget) && movingWidget == old(movingWidget) && multiWidget == old(multiWidget)
      ensures movingPoints == old(movingPoints) && activeIndex == old(activeIndex)
      ensures landmarkTransformType == old(landmarkTransformType)
      ensures old(|landmarks|) <= |landmarks| && landmarks[..old(|landmarks|)] == old(landmarks)
      ensures forall k | 0 <= k < old(|landmarks|) :: landmarks[k].active == old(landmarks[k].active)
      ensures old(activeIndex >= |fixedPoints|) ==>
        fixedPoints == old(fixedPoints) + [location] &&
        |landmarks| == old(|landmarks|) + 2 && landmarks[..old(|landmarks|)] == old(landmarks) &&
        fresh(landmarks[|landmarks| - 2]) && fresh(landmarks[|landmarks| - 1]) &&
        landmarks[|landmarks| - 2].renderer == fixedWidget && landmarks[|landmarks| - 1].renderer == multiWidget &&
        (forall k | old(|landmarks|) <= k < |landmarks| ::
          landmarks[k].id == activeIndex && landmarks[k].flag == Fixed && landmarks[k].position == location && landmarks[k].active) &&
        (forall k | 0 <= k < old(|landmarks|) :: landmarks[k].position == old(landmarks[k].position))
      ensures old(activeIndex < |fixedPoints|) ==>
        fixedPoints == old(fixedPoints)[activeIndex := location] && landmarks == old(landmarks) &&
        forall k | 0 <= k < |landmarks| ::
          landmarks[k].position == if landmarks[k].id == activeIndex && landmarks[k].flag == Fixed then location
                                   else old(landmarks[k].position)
    {
      if activeIndex >= |fixedPoints| {
        var landmark := new Landmark(activeIndex, fixedWidget, Fixed);
        landmark.SetPosition(location);
        landmarks := landmarks + [landmark];
        fixedPoints := fixedPoints + [location];
        var landmarkMulti := new Landmark(activeIndex, multiWidget, Fixed);
        landmarkMulti.SetPosition(location);
        landmarks := landmarks + [landmarkMulti];
      } else {
        MoveActiveMarkers(Fixed, location);
        fixedPoints := fixedPoints[activeIndex := location];
      }
    }

    /**
     * The first half of `pickedMovingLocation`, after the pick is converted
     * to volume coordinates `pos`: the same append-or-overwrite rule, the
     * moving-view marker at `pos` and the multi-view marker at the raw pick.
     */
    method RecordMovingPick(location: Point, pos: Point)
      requires Valid() && activeIndex <= |movingPoints|
      modifies this, Markers()
      ensures Valid()
      ensures fixedWidget == old(fixedWidget) && movingWidget == old(movingWidget) && multiWidget == old(multiWidget)
      ensures fixedPoints == old(fixedPoints) && activeIndex == old(activeIndex)
      ensures landmarkTransformType == old(landmarkTransformType)
      ensures old(|landmarks|) <= |landmarks| && landmarks[..old(|landmarks|)] == old(landmarks)
      ensures forall k | 0 <= k < old(|landmarks|) :: landmarks[k].active == old(landmarks[k].active)
      ensures old(activeIndex == |movingPoints|) ==>
        movingPoints == old(movingPoints) + [pos] &&
        |landmarks| == old(|landmarks|) + 2 && landmarks[..old(|landmarks|)] == old(landmarks) &&
        fresh(landmarks[|landmarks| - 2]) && fresh(landmarks[|landmarks| - 1]) &&
        landmarks[|landmarks| - 2].renderer == movingWidget && landmarks[|landmarks| - 2].position == pos &&
        landmarks[|landmarks| - 1].renderer == multiWidget && landmarks[|landmarks| - 1].position == location &&
        (forall k | old(|landmarks|) <= k < |landmarks| :: landmarks[k].id == activeIndex && landmarks[k].flag == Moving && landmarks[k].active) &&
        (forall k | 0 <= k < old(|landmarks|) :: landmarks[k].position == old(landmarks[k].position))
      ensures old(activeIndex < |movingPoints|) ==>
        movingPoints == old(movingPoints)[activeIndex := pos] && landmarks == old(landmarks) &&
        forall k | 0 <= k < |landmarks| ::
          landmarks[k].position == if landmarks[k].id == activeIndex && landmarks[k].flag == Moving then pos
                                   else old(landmarks[k].position)
    {
      if activeIndex >= |movingPoints| {
        var landmark := new Landmark(activeIndex, movingWidget, Moving);
        landmark.SetPosition(pos);
        landmarks := landmarks + [landmark];
        movingPoints := movingPoints + [pos];
        var landmarkMulti := new Landmark(activeIndex, multiWidget, Moving);
        landmarkMulti.SetPosition(location);
        landmarks := landmarks + [landmarkMulti];
      } else {
        MoveActiveMarkers(Moving, pos);
        movingPoints := movingPoints[activeIndex := pos];
      }
    }

    /**
     * `pickedFixedLocation`: record the pick, refit, then refresh the active
     * flags and the moving markers. New fixed markers sit at the pick; an
     * overwrite moves the fixed markers of the active landmark there too.
     */
    method PickedFixedLocation(location: Point)
      requires Valid()
      requires movingPoints != [] ==> multiWidget.transformations.stages != []
      modifies this, multiWidget.transformations, movingWidget`volumeTransform, Markers()
      ensures Valid()
      ensures fixedWidget == old(fixedWidget) && movingWidget == old(movingWidget) && multiWidget == old(multiWidget)
      ensures movingPoints == old(movingPoints) && activeIndex == old(activeIndex)
      ensures landmarkTransformType == old(landmarkTransformType)
      ensures old(|landmarks|) <= |landmarks| && landmarks[..old(|landmarks|)] == old(landmarks)
      ensures old(activeIndex >= |fixedPoints|) ==>
        fixedPoints == old(fixedPoints) + [location] && |landmarks| == old(|landmarks|) + 2 &&
        fresh(landmarks[|landmarks| - 2]) && fresh(landmarks[|landmarks| - 1]) &&
        landmarks[|landmarks| - 2].renderer == fixedWidget && landmarks[|landmarks| - 1].renderer == multiWidget &&
        forall k | old(|landmarks|) <= k < |landmarks| :: landmarks[k].id == activeIndex && landmarks[k].flag == Fixed
      ensures old(activeIndex < |fixedPoints|) ==>
        fixedPoints == old(fixedPoints)[activeIndex := location] && landmarks == old(landmarks)
      ensures multiWidget.transformations.stages ==
        UpdatedStages(vtk, old(multiWidget.transformations.stages), fixedPoints, movingPoints, landmarkTransformType)
      ensures movingPoints == [] ==> movingWidget.volumeTransform == old(movingWidget.volumeTransform)
      ensures movingPoints != [] ==> movingWidget.volumeTransform == vtk.scalingTransform(multiWidget.transformations.stages)
      ensures forall k | 0 <= k < |landmarks| :: landmarks[k].active == (landmarks[k].id == activeIndex)
      ensures forall k | old(|landmarks|) <= k < |landmarks| :: landmarks[k].position == location
      ensures forall k | 0 <= k < old(|landmarks|) && landmarks[k].flag == Fixed ::
        landmarks[k].position ==
          if old(activeIndex < |fixedPoints|) && landmarks[k].id == activeIndex then location
          else old(landmarks[k].position)
      ensures forall k | 0 <= k < old(|landmarks|) && landmarks[k].flag == Moving ::
        landmarks[k].position == RefreshedPosition(landmarks[k], old(landmarks[k].position), movingPoints,
                                                   multiWidget.transformations.stages, movingWidget, multiWidget)
    {
      RecordFixedPick(location);
      UpdateTransform();
      Update();
    }

    /**
     * `pickedMovingLocation`: convert the pick to volume coordinates, record
     * it, refit, then refresh the active flags and the moving markers, which
     * end up at their moving point seen through the view's transform.
     */
    method PickedMovingLocation(location: Point)
      requires Valid() && activeIndex <= |movingPoints|
      requires fixedPoints != [] ==> multiWidget.transformations.stages != []
      modifies this, multiWidget.transformations, movingWidget`volumeTransform, Markers()
      ensures Valid()
      ensures fixedWidget == old(fixedWidget) && movingWidget == old(movingWidget) && multiWidget == old(multiWidget)
      ensures fixedPoints == old(fixedPoints) && activeIndex == old(activeIndex)
      ensures landmarkTransformType == old(landmarkTransformType)
      ensures old(|landmarks|) <= |landmarks| && landmarks[..old(|landmarks|)] == old(landmarks)
      ensures var pos := vtk.worldToVolume(old(movingWidget.volumeTransform), location);
        old(activeIndex == |movingPoints|) ==>
          movingPoints == old(movingPoints) + [pos] && |landmarks| == old(|landmarks|) + 2 &&
          fresh(landmarks[|landmarks| - 2]) && fresh(landmarks[|landmarks| - 1]) &&
          landmarks[|landmarks| - 2].renderer == movingWidget && landmarks[|landmarks| - 1].renderer == multiWidget &&
          forall k | old(|landmarks|) <= k < |landmarks| :: landmarks[k].id == activeIndex && landmarks[k].flag == Moving
      ensures var pos := vtk.worldToVolume(old(movingWidget.volumeTransform), location);
        old(activeIndex < |movingPoints|) ==>
          movingPoints == old(movingPoints)[activeIndex := pos] && landmarks == old(landmarks)
      ensures multiWidget.transformations.stages ==
        UpdatedStages(vtk, old(multiWidget.transformations.stages), fixedPoints, movingPoints, landmarkTransformType)
      ensures fixedPoints == [] ==> movingWidget.volumeTransform == old(movingWidget.volumeTransform)
      ensures fixedPoints != [] ==> movingWidget.volumeTransform == vtk.scalingTransform(multiWidget.transformations.stages)
      ensures forall k | 0 <= k < |landmarks| :: landmarks[k].active == (landmarks[k].id == activeIndex)
      ensures forall k | 0 <= k < |landmarks| && Refreshes(landmarks[k], movingWidget, multiWidget) ::
        landmarks[k].position == ViewPosition(landmarks[k], movingPoints, multiWidget.transformations.stages, movingWidget, multiWidget)
      ensures forall k | 0 <= k < old(|landmarks|) && !Refreshes(landmarks[k], movingWidget, multiWidget) ::
        landmarks[k].position ==
          if landmarks[k].flag == Moving && landmarks[k].id == activeIndex
          then vtk.worldToVolume(old(movingWidget.volumeTransform), location)
          else old(landmarks[k].position)
    {
      var pos := vtk.worldToVolume(movingWidget.volumeTransform, location);
      RecordMovingPick(location, pos);
      UpdateTransform();
      Update();
    }
  }

  /** The stack `edited` differs from `stages` at most in its last stage. */
  ghost predicate SameBelowTop(edited: seq<Stage>, stages: seq<Stage>)
  {
    stages != [] && |edited| == |stages| && edited[..|stages| - 1] == stages[..|stages| - 1]
  }

  /** A fixed pick followed by a moving pick, on a tool that is set up. */
  method PickPair(tool: LandmarkTransformationTool, fixedPick: Point, movingPick: Point)
    requires tool.Valid() && tool.activeIndex <= |tool.movingPoints| && tool.multiWidget.transformations.stages != []
    modifies tool, tool.multiWidget.transformations, tool.movingWidget`volumeTransform, tool.Markers()
    ensures tool.Valid() && tool.multiWidget == old(tool.multiWidget) && tool.movingWidget == old(tool.movingWidget)
    ensures fresh(tool.Markers() - old(tool.Markers()))
    ensures SameBelowTop(tool.multiWidget.transformations.stages, old(tool.multiWidget.transformations.stages))
  {
    tool.PickedFixedLocation(fixedPick);
    tool.PickedMovingLocation(movingPick);
  }

  /** Another landmark is selected and picked, then the mode changes. */
  method SelectPickAndRefit(tool: LandmarkTransformationTool, next: nat, pick: Point, mode: int)
    requires tool.Valid() && tool.multiWidget.transformations.stages != []
    modifies tool, tool.multiWidget.transformations, tool.movingWidget`volumeTransform, tool.Markers()
    ensures tool.Valid() && tool.multiWidget == old(tool.multiWidget)
    ensures SameBelowTop(tool.multiWidget.transformations.stages, old(tool.multiWidget.transformations.stages))
  {
    tool.SetActiveLandmark(next);
    tool.PickedFixedLocation(pick);
    tool.LandmarkTypeChanged(mode);
  }

  /**
   * A session that is cancelled after picks, a change of the active landmark
   * and a change of mode: each of these only ever replaces the tool's own
   * stage, so deleting it leaves the stack as it was before the tool was set up.
   */
  method CancelledSession(tool: LandmarkTransformationTool, fixed: RenderWidget, moving: RenderWidget,
                          multi: RenderWidget, fixedPick: Point, movingPick: Point,
                          next: nat, secondPick: Point, mode: int)
    requires tool.Consistent() && tool.activeIndex <= |tool.movingPoints|
    modifies tool, multi.transformations, moving`volumeTransform, tool.Markers()
    ensures multi.transformations.stages == old(multi.transformations.stages)
  {
    tool.SetRenderWidgets(fixed, moving, multi);
    ghost var pushed := multi.transformations.stages;
    PickPair(tool, fixedPick, movingPick);
    SelectPickAndRefit(tool, next, secondPick, mode);
    assert multi.transformations.stages[..|pushed| - 1] == pushed[..|pushed| - 1];
    tool.CancelTransform();
  }
}
