/// Conversion between the 5x5 picker's cell indices and the values of the
/// host's "x" and "y" sliders, and from a pointer position to a cell index
/// (web/grid_position.js). Slider values are exact reals.
module GridMapping {

  /// Cells per side of the picker (`gridSize`).
  const GridSize: int := 5

  /// The slider value of each index, in index order.
  const Steps: seq<real> := [0.1, 0.3, 0.5, 0.7, 0.9]

  /// A cell of the picker: column (`gx`) and row (`gy`).
  datatype Cell = Cell(col: int, row: int)

  predicate InIndexRange(i: int) {
    0 <= i < GridSize
  }

  predicate InGrid(c: Cell) {
    InIndexRange(c.col) && InIndexRange(c.row)
  }

  function Min(a: int, b: int): (m: int) {
    if a <= b then a else b
  }

  function Max(a: int, b: int): (m: int) {
    if a >= b then a else b
  }

  /// `Math.min(4, Math.max(0, i))`: the clamp that keeps every stored
  /// coordinate on the grid.
  function Clamp(i: int): (r: int)
    ensures InIndexRange(r)
    ensures InIndexRange(i) ==> r == i
    ensures i < 0 ==> r == 0
    ensures i >= GridSize ==> r == GridSize - 1
  {
    Min(GridSize - 1, Max(0, i))
  }

  /// `gridToValue`: index i to slider value i*0.2 + 0.1; on exact reals the
  /// two-decimal rounding of the source changes nothing.
  function GridToValue(i: int): (v: real)
    ensures InIndexRange(i) ==> v == Steps[i]
    ensures InIndexRange(i) ==> 0.1 <= v <= 0.9
  {
    assert InIndexRange(i) ==> i == 0 || i == 1 || i == 2 || i == 3 || i == 4;
    i as real * 0.2 + 0.1
  }

  /// `Math.round`: the nearest integer, halves rounded up.
  function Round(x: real): (r: int)
    ensures r as real - 0.5 <= x < r as real + 0.5
  {
    (x + 0.5).Floor
  }

  /// `valueToGrid`: the nearest index to a slider value, clamped to 0..4.
  function ValueToGrid(v: real): (g: int)
    ensures InIndexRange(g)
  {
    Clamp(Round((v - 0.1) / 0.2))
  }

  /// `Math.floor(frac * gridSize)`: the index a pointer at fraction `frac`
  /// of the canvas's width (or height) falls on, before any clamping.
  function PointerIndex(frac: real): (k: int)
    ensures 0.0 <= frac < 1.0 ==> InIndexRange(k)
    ensures frac < 0.0 ==> k < 0
    ensures frac >= 1.0 ==> k >= GridSize
  {
    (frac * GridSize as real).Floor
  }

  /// ValueToGrid partitions the reals into five bands whose edges are the
  /// midpoints between neighbouring steps; the outer bands are unbounded.
  lemma ValueToGridBands(v: real, k: int)
    requires InIndexRange(k)
    ensures ValueToGrid(v) == k <==>
              (k == 0 || GridToValue(k) - 0.1 <= v) &&
              (k == GridSize - 1 || v < GridToValue(k) + 0.1)
  {
    var r := Round((v - 0.1) / 0.2);
    assert 0.2 * r as real <= v < 0.2 * r as real + 0.2;
    assert GridToValue(k) - 0.1 == 0.2 * k as real;
    if k == 0 {
      assert ValueToGrid(v) == 0 <==> r <= 0;
    } else if k == GridSize - 1 {
      assert ValueToGrid(v) == k <==> r >= k;
    } else {
      assert ValueToGrid(v) == k <==> r == k;
    }
  }

  /// Out-of-range slider values snap to the boundary cells.
  lemma ValueToGridClamps(v: real)
    ensures v < 0.1 ==> ValueToGrid(v) == 0
    ensures v > 0.9 ==> ValueToGrid(v) == GridSize - 1
  {
    ValueToGridBands(v, 0);
    ValueToGridBands(v, GridSize - 1);
  }

  /// Every index survives the trip to a slider value and back.
  lemma GridToValueRoundTrip(i: int)
    requires InIndexRange(i)
    ensures ValueToGrid(GridToValue(i)) == i
  {
    ValueToGridBands(GridToValue(i), i);
  }

  /// A slider value survives the trip to an index and back exactly when it
  /// is one of the five steps.
  lemma ValueToGridFixedPoints(v: real)
    ensures GridToValue(ValueToGrid(v)) == v <==> v in Steps
  {
    if v in Steps {
      var k :| 0 <= k < |Steps| && Steps[k] == v;
      GridToValueRoundTrip(k);
    }
  }

  /// The chosen index is the step nearest to the value: no other step is
  /// closer.
  lemma ValueToGridNearest(v: real, j: int)
    requires InIndexRange(j)
    ensures Dist(GridToValue(ValueToGrid(v)), v) <= Dist(GridToValue(j), v)
  {
    var g := ValueToGrid(v);
    ValueToGridBands(v, g);
  }

  function Dist(a: real, b: real): (d: real) {
    if a <= b then b - a else a - b
  }

  /// A larger slider value never selects a smaller index.
  lemma ValueToGridMonotone(v: real, w: real)
    requires v <= w
    ensures ValueToGrid(v) <= ValueToGrid(w)
  {
    ValueToGridBands(v, ValueToGrid(v));
    ValueToGridBands(w, ValueToGrid(w));
  }

  /// A pointer inside the canvas selects the index whose fifth of the width
  /// it lies in.
  lemma PointerIndexBands(frac: real, k: int)
    requires 0.0 <= frac < 1.0
    ensures PointerIndex(frac) == k <==> k as real / 5.0 <= frac < (k + 1) as real / 5.0
  {
  }

  /// After the clamp, a pointer selects the same cell that a slider value
  /// equal to its fraction would: both are clamp(floor(5 * frac)).
  lemma PointerAgreesWithSlider(frac: real)
    ensures Clamp(PointerIndex(frac)) == ValueToGrid(frac)
  {
    assert (frac - 0.1) / 0.2 + 0.5 == frac * GridSize as real;
  }
}
