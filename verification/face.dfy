/**
 * A face of the cube as a 3x3 grid of colours: quarter-turn rotation and the
 * bounds-checked row and column accessors. `np.rot90` is written out as the index
 * map of one counter-clockwise quarter turn.
 */
module FaceGrid {
  import opened Wrappers
  import opened Errors

  /** The members of the `CubeVals` enum. */
  datatype CubeVal = Red | Green | Orange | Blue | Yellow | White

  predicate IsGrid(g: seq<seq<CubeVal>>) {
    |g| == 3 && forall i :: 0 <= i < |g| ==> |g[i]| == 3
  }

  type Grid = g: seq<seq<CubeVal>> | IsGrid(g)
    witness [[Red, Red, Red], [Red, Red, Red], [Red, Red, Red]]

  /** A face holding a 3x3 array of colours, as the `Face` constructor demands. */
  datatype Face = Face(values: Grid)

  predicate SameCells(a: Grid, b: Grid) {
    forall i, j :: 0 <= i < 3 && 0 <= j < 3 ==> a[i][j] == b[i][j]
  }

  /** Grids with the same cells are the same grid. */
  lemma GridExtensional(a: Grid, b: Grid)
    requires SameCells(a, b)
    ensures a == b
  {
    forall i | 0 <= i < 3 ensures a[i] == b[i] {
      assert forall j :: 0 <= j < 3 ==> a[i][j] == b[i][j];
    }
  }

  // ---------------------------------------------------------------------------
  // Rotation
  // ---------------------------------------------------------------------------

  /** `np.rot90(g)`: one counter-clockwise quarter turn; row i of the result is column 2 - i. */
  function RotCcw(g: Grid): (r: Grid)
    ensures forall i, j :: 0 <= i < 3 && 0 <= j < 3 ==> r[i][j] == g[j][2 - i]
  {
    seq(3, i requires 0 <= i < 3 => seq(3, j requires 0 <= j < 3 => g[j][2 - i]))
  }

  /** `n` counter-clockwise quarter turns. */
  function RotCcwN(g: Grid, n: nat): Grid
    decreases n
  {
    if n == 0 then g else RotCcw(RotCcwN(g, n - 1))
  }

  /** `np.rot90(g, k)`, which turns `k % 4` times (Python's `%`, never negative here). */
  function NpRot90(g: Grid, k: int): Grid {
    RotCcwN(g, k % 4)
  }

  /** Four counter-clockwise quarter turns are the identity. */
  lemma RotCcwFour(g: Grid)
    ensures RotCcw(RotCcw(RotCcw(RotCcw(g)))) == g
  {
    var r := RotCcw(RotCcw(RotCcw(RotCcw(g))));
    assert SameCells(r, g);
    GridExtensional(r, g);
  }

  /** Turns add up. */
  lemma {:induction false} RotCcwNAdd(g: Grid, a: nat, b: nat)
    ensures RotCcwN(RotCcwN(g, a), b) == RotCcwN(g, a + b)
    decreases b
  {
    if b > 0 {
      RotCcwNAdd(g, a, b - 1);
    }
  }

  /** Any whole number of full turns is the identity. */
  lemma {:induction false} RotCcwNFullTurns(g: Grid, m: nat)
    ensures RotCcwN(g, 4 * m) == g
    decreases m
  {
    if m > 0 {
      RotCcwNFullTurns(g, m - 1);
      RotCcwNAdd(g, 4 * (m - 1), 4);
      var h := RotCcwN(g, 4 * (m - 1));
      assert RotCcwN(h, 4) == RotCcw(RotCcw(RotCcw(RotCcw(h))));
      RotCcwFour(h);
    }
  }

  /** The clockwise quarter turn as an index map: row i of the result is column i read bottom-up. */
  function RotCw(g: Grid): (r: Grid)
    ensures forall i, j :: 0 <= i < 3 && 0 <= j < 3 ==> r[i][j] == g[2 - j][i]
  {
    seq(3, i requires 0 <= i < 3 => seq(3, j requires 0 <= j < 3 => g[2 - j][i]))
  }

  /**
   * `Face.rotate90`: only "CW" and "CCW" are accepted; `k % 4 == 0` leaves the
   * face alone (only a warning is logged); CW turns counter-clockwise `3k` times.
   */
  function Rotate90(f: Face, direction: string, k: int): (r: Result<Face, Error>)
    ensures r.Success? <==> direction == "CW" || direction == "CCW"
    ensures r.Failure? ==> r.error == BadDirection(direction)
    ensures r.Success? && k % 4 == 0 ==> r.value == f
    ensures direction == "CCW" ==> r == Success(Face(RotCcwN(f.values, k % 4)))
  {
    if !(direction == "CW" || direction == "CCW") then Failure(BadDirection(direction))
    else if k % 4 == 0 then Success(f)
    else if direction == "CW" then Success(Face(NpRot90(f.values, k * 3)))
    else Success(Face(NpRot90(f.values, k)))
  }

  /** One clockwise quarter turn is the clockwise index map. */
  lemma RotateCwMatchesIndexMap(f: Face)
    ensures Rotate90(f, "CW", 1) == Success(Face(RotCw(f.values)))
  {
    var g := f.values;
    assert RotCcwN(g, 3) == RotCcw(RotCcw(RotCcw(g)));
    GridExtensional(RotCcwN(g, 3), RotCw(g));
  }

  /** Turning clockwise `k` times turns counter-clockwise `3k % 4` times, for every `k`. */
  lemma RotateCwTurns(f: Face, k: int)
    ensures Rotate90(f, "CW", k) == Success(Face(RotCcwN(f.values, (3 * k) % 4)))
  {
    if k % 4 == 0 {
      assert (3 * k) % 4 == 0;
    }
  }

  /** A clockwise rotation by `k` is undone by a counter-clockwise rotation by `k`, and the other way round. */
  lemma RotateInverse(f: Face, k: int)
    ensures Rotate90(Rotate90(f, "CW", k).value, "CCW", k) == Success(f)
    ensures Rotate90(Rotate90(f, "CCW", k).value, "CW", k) == Success(f)
  {
    var g := f.values;
    var a, b := (3 * k) % 4, k % 4;
    RotateCwTurns(f, k);
    var cw := Rotate90(f, "CW", k).value;
    RotateCwTurns(Face(RotCcwN(g, b)), k);
    if b == 0 {
      assert a == 0;
    } else {
      assert (a + b) % 4 == 0;
      RotCcwNAdd(g, a, b);
      RotCcwNAdd(g, b, a);
      RotCcwNFullTurns(g, (a + b) / 4);
    }
  }

  /** Four clockwise quarter turns bring the face back. */
  lemma FourQuarterTurns(f: Face)
    ensures Rotate90(Rotate90(Rotate90(Rotate90(f, "CW", 1).value, "CW", 1).value, "CW", 1).value, "CW", 1).value == f
  {
    var g := f.values;
    RotateCwMatchesIndexMap(f);
    var g1 := RotCw(g);
    RotateCwMatchesIndexMap(Face(g1));
    var g2 := RotCw(g1);
    RotateCwMatchesIndexMap(Face(g2));
    var g3 := RotCw(g2);
    RotateCwMatchesIndexMap(Face(g3));
    var g4 := RotCw(g3);
    assert SameCells(g4, g);
    GridExtensional(g4, g);
  }

  // ---------------------------------------------------------------------------
  // Rows and columns
  // ---------------------------------------------------------------------------

  /** Column `c` read top to bottom. */
  function Column(g: Grid, c: nat): (r: seq<CubeVal>)
    requires c < 3
    ensures |r| == 3 && forall i :: 0 <= i < 3 ==> r[i] == g[i][c]
  {
    [g[0][c], g[1][c], g[2][c]]
  }

  /** The row or column numpy reaches for an index: -3..-1 count from the end. */
  function NumpyIndex(index: int): (r: nat)
    requires -3 <= index <= 2
    ensures r < 3 && (r == index || r == index + 3)
  {
    if index < 0 then index + 3 else index
  }

  /**
   * `_set_row` as intended (the "unchanged row" test being only a warning): a value
   * whose shape is not (3,) is refused, then an index above 2; a negative index counts
   * from the end as numpy does, and below -3 numpy raises.
   */
  function SetRow(f: Face, row: int, a: seq<CubeVal>): (r: Result<Face, Error>)
    ensures r.Success? <==> |a| == 3 && -3 <= row <= 2
    ensures |a| != 3 ==> r == Failure(BadShape(|a|))
    ensures |a| == 3 && row > 2 ==> r == Failure(IndexAboveRange(row))
    ensures r.Success? ==> r.value.values[NumpyIndex(row)] == a
    ensures r.Success? ==> forall i :: 0 <= i < 3 && i != NumpyIndex(row) ==> r.value.values[i] == f.values[i]
  {
    if |a| != 3 then Failure(BadShape(|a|))
    else if row > 2 then Failure(IndexAboveRange(row))
    else if row < -3 then Failure(IndexBelowRange(row))
    else Success(Face(f.values[NumpyIndex(row) := a]))
  }

  /** `_set_column` as intended: the same checks as `SetRow`, then column `column` takes the value top to bottom. */
  function SetColumn(f: Face, column: int, a: seq<CubeVal>): (r: Result<Face, Error>)
    ensures r.Success? <==> |a| == 3 && -3 <= column <= 2
    ensures |a| != 3 ==> r == Failure(BadShape(|a|))
    ensures |a| == 3 && column > 2 ==> r == Failure(IndexAboveRange(column))
    ensures r.Success? ==> Column(r.value.values, NumpyIndex(column)) == a
    ensures r.Success? ==> forall i, j :: 0 <= i < 3 && 0 <= j < 3 && j != NumpyIndex(column) ==>
      r.value.values[i][j] == f.values[i][j]
  {
    if |a| != 3 then Failure(BadShape(|a|))
    else if column > 2 then Failure(IndexAboveRange(column))
    else if column < -3 then Failure(IndexBelowRange(column))
    else
      var c := NumpyIndex(column);
      var g := f.values;
      Success(Face([g[0][c := a[0]], g[1][c := a[1]], g[2][c := a[2]]]))
  }

  /**
   * `_set_row` as written: once the shape and bound checks pass, the test for an
   * unchanged row compares two arrays element-wise, and `if` on the resulting
   * three-element array raises ValueError, so the row is never written.
   */
  function SetRowAsWritten(f: Face, row: int, a: seq<CubeVal>): (r: Result<Face, Error>)
    ensures r.Failure?
    ensures |a| == 3 && -3 <= row <= 2 ==> r == Failure(AmbiguousTruth)
    ensures SetRow(f, row, a).Failure? ==> r == SetRow(f, row, a)
  {
    if |a| != 3 then Failure(BadShape(|a|))
    else if row > 2 then Failure(IndexAboveRange(row))
    else if row < -3 then Failure(IndexBelowRange(row))
    else Failure(AmbiguousTruth)
  }

  /** `_set_column` as written: the same element-wise test raises for every well-formed call. */
  function SetColumnAsWritten(f: Face, column: int, a: seq<CubeVal>): (r: Result<Face, Error>)
    ensures r.Failure?
    ensures |a| == 3 && -3 <= column <= 2 ==> r == Failure(AmbiguousTruth)
    ensures SetColumn(f, column, a).Failure? ==> r == SetColumn(f, column, a)
  {
    if |a| != 3 then Failure(BadShape(|a|))
    else if column > 2 then Failure(IndexAboveRange(column))
    else if column < -3 then Failure(IndexBelowRange(column))
    else Failure(AmbiguousTruth)
  }

  /**
   * The discrepancy on a concrete call: writing a red top row on a white face
   * raises as written, while the intended setter writes it.
   */
  lemma SetRowAsWrittenRaises()
    ensures var f := Face([[White, White, White], [White, White, White], [White, White, White]]);
      && SetRowAsWritten(f, 0, [Red, Red, Red]) == Failure(AmbiguousTruth)
      && SetColumnAsWritten(f, 0, [Red, Red, Red]) == Failure(AmbiguousTruth)
      && SetRow(f, 0, [Red, Red, Red]).Success?
      && TopRow(SetRow(f, 0, [Red, Red, Red]).value) == [Red, Red, Red]
  {
  }

  /** The `top_row` getter. */
  function TopRow(f: Face): seq<CubeVal> {
    f.values[0]
  }

  /** The `bottom_row` getter. */
  function BottomRow(f: Face): seq<CubeVal> {
    f.values[2]
  }

  /** The `left_column` getter. */
  function LeftColumn(f: Face): seq<CubeVal> {
    Column(f.values, 0)
  }

  /** The `right_column` getter. */
  function RightColumn(f: Face): seq<CubeVal> {
    Column(f.values, 2)
  }

  /** The `top_row` setter. */
  function SetTopRow(f: Face, a: seq<CubeVal>): Result<Face, Error> {
    SetRow(f, 0, a)
  }

  /** The `bottom_row` setter. */
  function SetBottomRow(f: Face, a: seq<CubeVal>): Result<Face, Error> {
    SetRow(f, 2, a)
  }

  /** The `left_column` setter. */
  function SetLeftColumn(f: Face, a: seq<CubeVal>): Result<Face, Error> {
    SetColumn(f, 0, a)
  }

  /** The `right_column` setter. */
  function SetRightColumn(f: Face, a: seq<CubeVal>): Result<Face, Error> {
    SetColumn(f, 2, a)
  }

  /**
   * Each property reads what its setter wrote, on rows 0 and 2 and columns 0 and 2;
   * the opposite edge is left as it was; a value of the wrong length is refused.
   */
  lemma EdgeAccessors(f: Face, a: seq<CubeVal>)
    ensures |a| == 3 ==> TopRow(SetTopRow(f, a).value) == a && BottomRow(SetTopRow(f, a).value) == BottomRow(f)
    ensures |a| == 3 ==> BottomRow(SetBottomRow(f, a).value) == a && TopRow(SetBottomRow(f, a).value) == TopRow(f)
    ensures |a| == 3 ==> LeftColumn(SetLeftColumn(f, a).value) == a && RightColumn(SetLeftColumn(f, a).value) == RightColumn(f)
    ensures |a| == 3 ==> RightColumn(SetRightColumn(f, a).value) == a && LeftColumn(SetRightColumn(f, a).value) == LeftColumn(f)
    ensures |a| != 3 ==> SetTopRow(f, a).Failure? && SetBottomRow(f, a).Failure?
    ensures |a| != 3 ==> SetLeftColumn(f, a).Failure? && SetRightColumn(f, a).Failure?
  {
  }

  /** A negative index is not refused: -1 writes the bottom row. */
  lemma NegativeRowIndex(f: Face, a: seq<CubeVal>)
    requires |a| == 3
    ensures SetRow(f, -1, a) == SetBottomRow(f, a)
  {
  }
}
