/**
 * Values and shared state that both transformation tools work on: points,
 * 4x4 homogeneous matrices, the stages of the transform stack that the
 * multi-volume render widget owns, and the part of a render widget the tools
 * touch (its desired update rate and the user transform of its volume).
 */
module Transforms {

  /** A location in 3D space: the three coordinates of a VTK point. */
  datatype Point = Point(x: real, y: real, z: real)

  /** Where a new landmark marker sits before its first setPosition. */
  const Origin: Point := Point(0.0, 0.0, 0.0)

  /** Four rows of four reals each: the elements of a vtkMatrix4x4, row by row. */
  predicate IsMatrix4(rows: seq<seq<real>>)
  {
    |rows| == 4 && forall i | 0 <= i < 4 :: |rows[i]| == 4
  }

  type Matrix = rows: seq<seq<real>> | IsMatrix4(rows)
    witness [[1.0, 0.0, 0.0, 0.0], [0.0, 1.0, 0.0, 0.0], [0.0, 0.0, 1.0, 0.0], [0.0, 0.0, 0.0, 1.0]]

  /** The matrix of a freshly constructed vtkTransform. */
  const Identity: Matrix :=
    [[1.0, 0.0, 0.0, 0.0], [0.0, 1.0, 0.0, 0.0], [0.0, 0.0, 1.0, 0.0], [0.0, 0.0, 0.0, 1.0]]

  /** The tag a Transformation carries: which tool produced the stage. */
  datatype StageKind = UserStage | LandmarkStage

  /** One Transformation: a transform (as its matrix) and its kind. */
  datatype Stage = Stage(transform: Matrix, kind: StageKind)

  /**
   * The transform stack of the multi-volume render widget, shared by every
   * tool of a session. The tools use it as a list: append, assignment to the
   * last element, and deletion of the last element.
   */
  class Transformations {
    var stages: seq<Stage>

    constructor (initial: seq<Stage>)
      ensures stages == initial
    {
      stages := initial;
    }

    /** `transformations.append(stage)` */
    method Append(stage: Stage)
      modifies this
      ensures stages == old(stages) + [stage]
    {
      stages := stages + [stage];
    }

    /** `transformations[-1] = stage`; Python raises IndexError on an empty list. */
    method SetLast(stage: Stage)
      requires stages != []
      modifies this
      ensures |stages| == |old(stages)|
      ensures forall i | 0 <= i < |stages| - 1 :: stages[i] == old(stages)[i]
      ensures stages[|stages| - 1] == stage
    {
      stages := stages[..|stages| - 1] + [stage];
    }

    /** `del transformations[-1]`; Python raises IndexError on an empty list. */
    method DeleteLast()
      requires stages != []
      modifies this
      ensures stages == old(stages)[..|old(stages)| - 1]
    {
      stages := stages[..|stages| - 1];
    }
  }

  /**
   * The state of a render widget that the tools read or change: the desired
   * update rate of its interactor, the user transform of the volume it shows,
   * and (for the multi-volume widget) the transform stack.
   */
  class RenderWidget {
    var desiredUpdateRate: real
    var volumeTransform: Matrix
    const transformations: Transformations

    constructor (rate: real, volume: Matrix, stack: Transformations)
      ensures desiredUpdateRate == rate && volumeTransform == volume && transformations == stack
    {
      desiredUpdateRate := rate;
      volumeTransform := volume;
      transformations := stack;
    }
  }
}
