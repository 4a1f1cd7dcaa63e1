/**
 * The manual transformation tool: the user moves a box widget or types the
 * sixteen elements of a 4x4 matrix into a grid of line edits, and the tool
 * keeps one user stage on top of the shared transform stack.
 *
 * The line edits are modelled by their texts (four rows of four), the
 * "%6.2f" formatting and Python's float() parsing by the two functions the
 * tool is built with.
 */
module UserTransformation {
  import opened Transforms

  datatype Option<T> = None | Some(value: T)

  /** The value `_readArrayOfValues` falls back to for a cell that does not parse. */
  const DefaultCell: real := 0.0

  /** The update rate the tool keeps before it has seen the render widget. */
  const InitialUpdateRate: real := 15.0

  /** The update rate the tool sets while the box widget is in use. */
  const InteractiveUpdateRate: real := 5.0

  /** The value one cell contributes: its parsed number, or the default. */
  function CellValue(parse: string -> Option<real>, text: string, default: real): real
  {
    match parse(text)
    case Some(v) => v
    case None => default
  }

  /**
   * What `_readArrayOfValues` computes: one value per cell, in order, each
   * decided by its own cell only.
   */
  function ParsedCells(parse: string -> Option<real>, texts: seq<string>, default: real): (values: seq<real>)
    ensures |values| == |texts|
    ensures forall i | 0 <= i < |texts| ::
      (parse(texts[i]).Some? ==> values[i] == parse(texts[i]).value) &&
      (parse(texts[i]).None? ==> values[i] == default)
  {
    if texts == [] then []
    else [CellValue(parse, texts[0], default)] + ParsedCells(parse, texts[1..], default)
  }

  /** Parsing rows one by one and concatenating is parsing the whole grid. */
  lemma ParsedCellsAppend(parse: string -> Option<real>, a: seq<string>, b: seq<string>, default: real)
    ensures ParsedCells(parse, a + b, default) == ParsedCells(parse, a, default) + ParsedCells(parse, b, default)
  {
    var whole, left, right := ParsedCells(parse, a + b, default), ParsedCells(parse, a, default), ParsedCells(parse, b, default);
    assert forall i | 0 <= i < |a| + |b| :: whole[i] == (left + right)[i] by {
      forall i | 0 <= i < |a| + |b| ensures whole[i] == (left + right)[i] {
        if i < |a| {
          assert (a + b)[i] == a[i];
        } else {
          assert (a + b)[i] == b[i - |a|];
        }
      }
    }
  }

  /** Editing one cell changes the parsed value of that cell and of no other. */
  lemma BadCellIsolated(parse: string -> Option<real>, texts: seq<string>, i: nat, text: string, default: real)
    requires i < |texts|
    ensures ParsedCells(parse, texts[i := text], default) ==
            ParsedCells(parse, texts, default)[i := CellValue(parse, text, default)]
  {
    var edited, before := ParsedCells(parse, texts[i := text], default), ParsedCells(parse, texts, default);
    assert forall k | 0 <= k < |texts| :: edited[k] == before[i := CellValue(parse, text, default)][k];
  }

  /**
   * The row-major flattening of `transformUpdated`: the four rows one after
   * the other, so that element (x, y) sits at 4 * x + y.
   */
  function Flatten(m: Matrix): (values: seq<real>)
    ensures |values| == 16
    ensures forall x, y | 0 <= x < 4 && 0 <= y < 4 :: values[4 * x + y] == m[x][y]
  {
    var values := m[0] + m[1] + m[2] + m[3];
    assert forall x, y | 0 <= x < 4 && 0 <= y < 4 :: values[4 * x + y] == m[x][y] by {
      forall x, y | 0 <= x < 4 && 0 <= y < 4 ensures values[4 * x + y] == m[x][y] {
        if x == 0 {
        } else if x == 1 {
          assert values[4 + y] == (m[1] + m[2] + m[3])[y];
        } else if x == 2 {
          assert values[8 + y] == (m[2] + m[3])[y];
        } else {
          assert values[12 + y] == m[3][y];
        }
      }
    }
    values
  }

  /** The unflattening of `updateTransformFromText`: element (x, y) is value 4 * x + y. */
  function Unflatten(values: seq<real>): (m: Matrix)
    requires |values| == 16
    ensures forall x, y | 0 <= x < 4 && 0 <= y < 4 :: m[x][y] == values[4 * x + y]
  {
    var rows := seq(4, x requires 0 <= x < 4 => values[4 * x..4 * x + 4]);
    assert IsMatrix4(rows);
    rows
  }

  /** Two matrices with the same elements are the same matrix. */
  lemma MatrixExtensionality(a: Matrix, b: Matrix)
    requires forall x, y | 0 <= x < 4 && 0 <= y < 4 :: a[x][y] == b[x][y]
    ensures a == b
  {
    forall x | 0 <= x < 4 ensures a[x] == b[x] {
      assert forall y | 0 <= y < 4 :: a[x][y] == b[x][y];
    }
  }

  /** Sixteen values that hold element (x, y) of a matrix at 4 * x + y are its flattening. */
  lemma FlattenUnique(values: seq<real>, m: Matrix)
    requires |values| == 16
    requires forall x, y | 0 <= x < 4 && 0 <= y < 4 :: values[4 * x + y] == m[x][y]
    ensures values == Flatten(m)
  {
    forall k | 0 <= k < 16 ensures values[k] == Flatten(m)[k] {
      var x, y := k / 4, k % 4;
      assert k == 4 * x + y;
    }
  }

  /** `values[0:4]`, `values[4:8]`, ... of the flattened matrix are its rows, in order. */
  lemma FlattenRows(m: Matrix, x: nat)
    requires x < 4
    ensures Flatten(m)[4 * x..4 * x + 4] == m[x]
  {
    var row := Flatten(m)[4 * x..4 * x + 4];
    assert forall y | 0 <= y < 4 :: row[y] == Flatten(m)[4 * x + y];
  }

  /** Reading back what was flattened gives the matrix again. */
  lemma UnflattenFlatten(m: Matrix)
    ensures Unflatten(Flatten(m)) == m
  {
    MatrixExtensionality(Unflatten(Flatten(m)), m);
  }

  /** Flattening what was read back gives the sixteen values again. */
  lemma FlattenUnflatten(values: seq<real>)
    requires |values| == 16
    ensures Flatten(Unflatten(values)) == values
  {
    FlattenUnique(values, Unflatten(values));
  }

  /** The nested loop of `transformUpdated` that collects the elements row by row. */
  method FlattenMatrix(m: Matrix) returns (values: seq<real>)
    ensures |values| == 16
    ensures forall x, y | 0 <= x < 4 && 0 <= y < 4 :: values[4 * x + y] == m[x][y]
    ensures values == Flatten(m)
  {
    values := [];
    for x := 0 to 4
      invariant |values| == 4 * x
      invariant forall a, b | 0 <= a < x && 0 <= b < 4 :: values[4 * a + b] == m[a][b]
    {
      for y := 0 to 4
        invariant |values| == 4 * x + y
        invariant forall a, b | 0 <= a < x && 0 <= b < 4 :: values[4 * a + b] == m[a][b]
        invariant forall b | 0 <= b < y :: values[4 * x + b] == m[x][b]
      {
        values := values + [m[x][y]];
      }
    }
    FlattenUnique(values, m);
  }

  /** The elements of a 4x4 array as a matrix value. */
  function MatrixOf(elements: array2<real>): (m: Matrix)
    requires elements.Length0 == 4 && elements.Length1 == 4
    reads elements
    ensures forall x, y | 0 <= x < 4 && 0 <= y < 4 :: m[x][y] == elements[x, y]
  {
    var rows := seq(4, x requires 0 <= x < 4 reads elements => seq(4, y requires 0 <= y < 4 reads elements => elements[x, y]));
    assert IsMatrix4(rows);
    rows
  }

  /**
   * The nested loop of `updateTransformFromText`: a new vtkMatrix4x4 (the
   * identity) whose elements are set in row-major order from a running index.
   */
  method UnflattenValues(values: seq<real>) returns (m: Matrix)
    requires |values| == 16
    ensures forall x, y | 0 <= x < 4 && 0 <= y < 4 :: m[x][y] == values[4 * x + y]
    ensures m == Unflatten(values)
  {
    var elements := new real[4, 4]((x, y) => if x == y then 1.0 else 0.0);
    var element := 0;
    for x := 0 to 4
      invariant element == 4 * x
      invariant forall a, b | 0 <= a < x && 0 <= b < 4 :: elements[a, b] == values[4 * a + b]
    {
      for y := 0 to 4
        invariant element == 4 * x + y
        invariant forall a, b | 0 <= a < x && 0 <= b < 4 :: elements[a, b] == values[4 * a + b]
        invariant forall b | 0 <= b < y :: elements[x, b] == values[4 * x + b]
      {
        elements[x, y] := values[element];
        element := element + 1;
      }
    }
    m := MatrixOf(elements);
    MatrixExtensionality(m, Unflatten(values));
  }

  class UserTransformationTool {
    /** Python's float() on a cell's text: a number, or None where it raises. */
    const parse: string -> Option<real>
    /** The "%6.2f" formatting of a value for its cell. */
    const format: real -> string

    /** The texts of the four rows of line edits, m1Edits to m4Edits. */
    const m1Edits: array<string>
    const m2Edits: array<string>
    const m3Edits: array<string>
    const m4Edits: array<string>

    var movingWidget: RenderWidget?
    var renderWidget: RenderWidget?
    var originalUpdateRate: real

    /** Four distinct rows of four cells. */
    predicate GridShaped()
    {
      m1Edits.Length == 4 && m2Edits.Length == 4 && m3Edits.Length == 4 && m4Edits.Length == 4 &&
      m1Edits != m2Edits && m1Edits != m3Edits && m1Edits != m4Edits &&
      m2Edits != m3Edits && m2Edits != m4Edits && m3Edits != m4Edits
    }

    /** The tool after `setRenderWidgets`: it knows its widgets. */
    ghost predicate Valid()
      reads this
    {
      GridShaped() && movingWidget != null && renderWidget != null
    }

    /** `__init__` with the line edits of `getParameterWidget`, each showing "0.0". */
    constructor (parse: string -> Option<real>, format: real -> string)
      ensures GridShaped() && fresh(m1Edits) && fresh(m2Edits) && fresh(m3Edits) && fresh(m4Edits)
      ensures forall y | 0 <= y < 4 :: m1Edits[y] == m2Edits[y] == m3Edits[y] == m4Edits[y] == "0.0"
      ensures originalUpdateRate == InitialUpdateRate
      ensures movingWidget == null && renderWidget == null
      ensures this.parse == parse && this.format == format
    {
      this.parse := parse;
      this.format := format;
      m1Edits := new string[4](_ => "0.0");
      m2Edits := new string[4](_ => "0.0");
      m3Edits := new string[4](_ => "0.0");
      m4Edits := new string[4](_ => "0.0");
      movingWidget := null;
      renderWidget := null;
      originalUpdateRate := InitialUpdateRate;
    }

    /**
     * Saves the widget's update rate, lowers it for interaction and pushes
     * one user stage holding a fresh (identity) transform.
     */
    method SetRenderWidgets(moving: RenderWidget, multi: RenderWidget)
      requires GridShaped()
      modifies this, multi, multi.transformations
      ensures Valid() && movingWidget == moving && renderWidget == multi
      ensures originalUpdateRate == old(multi.desiredUpdateRate)
      ensures multi.desiredUpdateRate == InteractiveUpdateRate
      ensures multi.volumeTransform == old(multi.volumeTransform)
      ensures multi.transformations.stages == old(multi.transformations.stages) + [Stage(Identity, UserStage)]
    {
      movingWidget := moving;
      renderWidget := multi;
      originalUpdateRate := multi.desiredUpdateRate;
      multi.desiredUpdateRate := InteractiveUpdateRate;
      multi.transformations.Append(Stage(Identity, UserStage));
    }

    /** Restores the update rate saved by SetRenderWidgets. */
    method CleanUp()
      requires Valid()
      modifies renderWidget
      ensures renderWidget.desiredUpdateRate == originalUpdateRate
      ensures renderWidget.volumeTransform == old(renderWidget.volumeTransform)
    {
      renderWidget.desiredUpdateRate := originalUpdateRate;
    }

    /** Removes the stage this tool pushed. */
    method CancelTransform()
      requires Valid() && renderWidget.transformations.stages != []
      modifies renderWidget.transformations
      ensures renderWidget.transformations.stages == old(renderWidget.transformations.stages)[..|old(renderWidget.transformations.stages)| - 1]
    {
      renderWidget.transformations.DeleteLast();
    }

    /** `_updateText`: cell i of the row shows value i. */
    method UpdateText(edits: array<string>, values: seq<real>)
      requires edits.Length == |values|
      modifies edits
      ensures forall i | 0 <= i < edits.Length :: edits[i] == format(values[i])
    {
      for index := 0 to edits.Length
        invariant forall i | 0 <= i < index :: edits[i] == format(values[i])
      {
        edits[index] := format(values[index]);
      }
    }

    /** `transformUpdated`: every cell (x, y) shows element (x, y) of the matrix. */
    method TransformUpdated(transform: Matrix)
      requires GridShaped()
      modifies m1Edits, m2Edits, m3Edits, m4Edits
      ensures forall y | 0 <= y < 4 ::
        m1Edits[y] == format(transform[0][y]) && m2Edits[y] == format(transform[1][y]) &&
        m3Edits[y] == format(transform[2][y]) && m4Edits[y] == format(transform[3][y])
    {
      var values := FlattenMatrix(transform);
      FlattenRows(transform, 0);
      FlattenRows(transform, 1);
      FlattenRows(transform, 2);
      FlattenRows(transform, 3);
      UpdateText(m1Edits, values[0..4]);
      UpdateText(m2Edits, values[4..8]);
      UpdateText(m3Edits, values[8..12]);
      UpdateText(m4Edits, values[12..16]);
    }

    /** `transformBoxUpdated`: the box's transform becomes the last stage and fills the grid. */
    method TransformBoxUpdated(transform: Matrix)
      requires Valid() && renderWidget.transformations.stages != []
      modifies renderWidget.transformations, m1Edits, m2Edits, m3Edits, m4Edits
      ensures |renderWidget.transformations.stages| == |old(renderWidget.transformations.stages)|
      ensures forall i | 0 <= i < |renderWidget.transformations.stages| - 1 ::
        renderWidget.transformations.stages[i] == old(renderWidget.transformations.stages)[i]
      ensures renderWidget.transformations.stages[|renderWidget.transformations.stages| - 1] == Stage(transform, UserStage)
      ensures forall y | 0 <= y < 4 ::
        m1Edits[y] == format(transform[0][y]) && m2Edits[y] == format(transform[1][y]) &&
        m3Edits[y] == format(transform[2][y]) && m4Edits[y] == format(transform[3][y])
    {
      renderWidget.transformations.SetLast(Stage(transform, UserStage));
      TransformUpdated(transform);
    }

    /** `_readArrayOfValues`: parse every cell on its own, never failing. */
    method ReadArrayOfValues(edits: array<string>, default: real) returns (values: seq<real>)
      ensures values == ParsedCells(parse, edits[..], default)
    {
      values := [];
      for i := 0 to edits.Length
        invariant values == ParsedCells(parse, edits[..i], default)
      {
        var value := match parse(edits[i]) case Some(v) => v case None => default;
        ParsedCellsAppend(parse, edits[..i], [edits[i]], default);
        assert edits[..i + 1] == edits[..i] + [edits[i]];
        values := values + [value];
      }
      assert edits[..edits.Length] == edits[..];
    }

    /**
     * `updateTransformFromText`: the grid, parsed cell by cell with 0.0 for a
     * cell that does not parse, becomes the matrix of the last stage.
     */
    method UpdateTransformFromText()
      requires Valid() && renderWidget.transformations.stages != []
      modifies renderWidget.transformations
      ensures |renderWidget.transformations.stages| == |old(renderWidget.transformations.stages)|
      ensures forall i | 0 <= i < |renderWidget.transformations.stages| - 1 ::
        renderWidget.transformations.stages[i] == old(renderWidget.transformations.stages)[i]
      ensures renderWidget.transformations.stages[|renderWidget.transformations.stages| - 1].kind == UserStage
      ensures renderWidget.transformations.stages[|renderWidget.transformations.stages| - 1].transform ==
        [ParsedCells(parse, m1Edits[..], DefaultCell), ParsedCells(parse, m2Edits[..], DefaultCell),
         ParsedCells(parse, m3Edits[..], DefaultCell), ParsedCells(parse, m4Edits[..], DefaultCell)]
    {
      var line1 := ReadArrayOfValues(m1Edits, DefaultCell);
      var line2 := ReadArrayOfValues(m2Edits, DefaultCell);
      var line3 := ReadArrayOfValues(m3Edits, DefaultCell);
      var line4 := ReadArrayOfValues(m4Edits, DefaultCell);
      var values := line1 + line2 + line3 + line4;
      var matrix := UnflattenValues(values);
      assert matrix[0] == values[0..4] == line1;
      assert matrix[1] == values[4..8] == line2;
      assert matrix[2] == values[8..12] == line3;
      assert matrix[3] == values[12..16] == line4;
      renderWidget.transformations.SetLast(Stage(matrix, UserStage));
    }
  }

  /**
   * A session that is cancelled after a box move and a text edit: the tool
   * pushes its stage, the edits only replace it, the stage is deleted again
   * and the update rate is restored, leaving the render widget as it was.
   */
  method CancelledSession(tool: UserTransformationTool, moving: RenderWidget, multi: RenderWidget, box: Matrix)
    requires tool.GridShaped()
    modifies tool, multi, multi.transformations, tool.m1Edits, tool.m2Edits, tool.m3Edits, tool.m4Edits
    ensures multi.transformations.stages == old(multi.transformations.stages)
    ensures multi.desiredUpdateRate == old(multi.desiredUpdateRate)
  {
    tool.SetRenderWidgets(moving, multi);
    tool.TransformBoxUpdated(box);
    tool.UpdateTransformFromText();
    tool.CancelTransform();
    tool.CleanUp();
  }
}
