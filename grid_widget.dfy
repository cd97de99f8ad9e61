/// The state of one "NAID Grid Position" node (web/grid_position.js,
/// `onNodeCreated`): the selected cell, the label and highlighted cell that
/// `redraw` derives from it, and the two host sliders it keeps in step.
module GridWidget {
  import opened GridMapping
  import opened GridLabel

  /// A numeric slider widget of the host ("x" or "y").
  class Slider {
    var value: real
    /// Whether the host had an `onChange` handler on the slider before the
    /// grid wrapped it.
    const hasPrior: bool
    /// The values that earlier handler has been called with since then.
    var priorCalls: seq<real>

    constructor (value: real, hasPrior: bool)
      ensures this.value == value && this.hasPrior == hasPrior && priorCalls == []
    {
      this.value := value;
      this.hasPrior := hasPrior;
      priorCalls := [];
    }

    /// `prevX?.(v)` / `prevY?.(v)`: hand the value to the earlier handler,
    /// if there is one.
    method NotifyPrior(v: real)
      modifies this
      ensures value == old(value)
      ensures priorCalls == old(priorCalls) + PriorEcho(this, v)
    {
      if hasPrior {
        priorCalls := priorCalls + [v];
      }
    }
  }

  /// What a slider holds: its value and what its earlier handler has seen.
  datatype SliderState = SliderState(value: real, priorCalls: seq<real>)

  /// Everything a grid node's operations can change, in one value.
  datatype NodeState = NodeState(
    gx: int, gy: int, labelText: string, filled: seq<Cell>, randomEnabled: bool,
    x: Option<SliderState>, y: Option<SliderState>)

  function SliderStateOf(s: Slider?): (st: Option<SliderState>)
    reads s
  {
    if s == null then None else Some(SliderState(s.value, s.priorCalls))
  }

  /// A slider's state `was` after the grid has written `v` into the slider
  /// `s` and notified its handlers.
  function AfterPush(was: Option<SliderState>, s: Slider, v: real): (st: Option<SliderState>)
  {
    match was
    case None => None
    case Some(before) => Some(SliderState(v, before.priorCalls + PriorEcho(s, v)))
  }

  /// What a slider's earlier handler receives when the slider reports `v`.
  function PriorEcho(s: Slider, v: real): (calls: seq<real>) {
    if s.hasPrior then [v] else []
  }

  /// `redraw`'s nested loop over the 25 cells: the cells filled with the
  /// highlight colour, in drawing order. Exactly the selected cell is
  /// filled, and nothing when the selection lies off the grid.
  method PaintCells(gx: int, gy: int) returns (filled: seq<Cell>)
    ensures InGrid(Cell(gx, gy)) ==> filled == [Cell(gx, gy)]
    ensures !InGrid(Cell(gx, gy)) ==> filled == []
  {
    filled := [];
    var yy := 0;
    while yy < GridSize
      invariant 0 <= yy <= GridSize
      invariant filled == if InGrid(Cell(gx, gy)) && gy < yy then [Cell(gx, gy)] else []
    {
      var xx := 0;
      while xx < GridSize
        invariant 0 <= xx <= GridSize
        invariant filled == if InGrid(Cell(gx, gy)) && (gy < yy || (gy == yy && gx < xx))
                            then [Cell(gx, gy)] else []
      {
        if xx == gx && yy == gy {
          filled := filled + [Cell(xx, yy)];
        }
        xx := xx + 1;
      }
      yy := yy + 1;
    }
  }

  /// One grid node: the selected cell `(gx, gy)`, what the last redraw
  /// showed, the "Random" checkbox, and the node's "x" and "y" sliders
  /// (null when the node has no such widget).
  class GridNode {
    var gx: int
    var gy: int
    const xW: Slider?
    const yW: Slider?
    /// The label text of the last redraw.
    var labelText: string
    /// The cells filled with the highlight colour by the last redraw.
    var filled: seq<Cell>
    /// `naidRandomEnabled`.
    var randomEnabled: bool

    /// The objects this node's operations may change.
    ghost function Repr(): set<object> {
      {this} + (if xW == null then {} else {xW}) + (if yW == null then {} else {yW})
    }

    /// The node's state as one value.
    ghost function State(): NodeState
      reads Repr()
    {
      NodeState(gx, gy, labelText, filled, randomEnabled, SliderStateOf(xW), SliderStateOf(yW))
    }

    /// Both sliders exist: the grid then listens to them and pushes to them.
    predicate Synced() {
      xW != null && yW != null
    }

    /// The two sliders, when present, are distinct widgets.
    predicate Wired() {
      Synced() ==> xW != yW
    }

    /// The selected cell lies on the grid.
    ghost predicate Sound()
      reads this
    {
      Wired() && InGrid(Cell(gx, gy))
    }

    /// Additionally, the label and highlight show the selected cell.
    ghost predicate Valid()
      reads this
    {
      Sound() && labelText == Label(Cell(gx, gy)) && filled == [Cell(gx, gy)]
    }

    /// Both sliders, when present, hold the values of the selected cell.
    ghost predicate SlidersShowCell()
      reads Repr()
    {
      Synced() ==> xW.value == GridToValue(gx) && yW.value == GridToValue(gy)
    }

    /// The grid part of `onNodeCreated`: start at the centre cell, take the
    /// cell from the sliders when both exist (and from then on listen to
    /// them), leave "Random" off, and draw.
    constructor (xW: Slider?, yW: Slider?)
      requires xW != null && yW != null ==> xW != yW
      ensures Valid() && !randomEnabled
      ensures this.xW == xW && this.yW == yW
      ensures Synced() ==> gx == ValueToGrid(xW.value) && gy == ValueToGrid(yW.value)
      ensures !Synced() ==> gx == 2 && gy == 2
    {
      this.xW := xW;
      this.yW := yW;
      gx, gy := 2, 2;
      labelText, filled := [], [];
      randomEnabled := false;
      new;
      if xW != null && yW != null {
        gx := ValueToGrid(xW.value);
        gy := ValueToGrid(yW.value);
      }
      Redraw();
    }

    /// `redraw`: refresh the highlighted cell and the label from `(gx, gy)`.
    method Redraw()
      requires Sound()
      modifies this`labelText, this`filled
      ensures Valid()
      ensures labelText == Label(Cell(gx, gy)) && filled == [Cell(gx, gy)]
    {
      filled := PaintCells(gx, gy);
      labelText := Label(Cell(gx, gy));
    }

    /// The handler the grid installs on the "x" slider: it hands the new
    /// value to the earlier handler, then moves the column to the value's
    /// nearest index; the row is left alone.
    method OnXChange(v: real)
      requires Sound() && Synced()
      modifies this, xW
      ensures Valid()
      ensures gx == ValueToGrid(v) && gy == old(gy)
      ensures randomEnabled == old(randomEnabled)
      ensures xW.value == old(xW.value)
      ensures xW.priorCalls == old(xW.priorCalls) + PriorEcho(xW, v)
    {
      xW.NotifyPrior(v);
      gx := ValueToGrid(v);
      Redraw();
    }

    /// The handler the grid installs on the "y" slider: the same for the
    /// row; the column is left alone.
    method OnYChange(v: real)
      requires Sound() && Synced()
      modifies this, yW
      ensures Valid()
      ensures gy == ValueToGrid(v) && gx == old(gx)
      ensures randomEnabled == old(randomEnabled)
      ensures yW.value == old(yW.value)
      ensures yW.priorCalls == old(yW.priorCalls) + PriorEcho(yW, v)
    {
      yW.NotifyPrior(v);
      gy := ValueToGrid(v);
      Redraw();
    }

    /// `setGrid`: select the cell, each coordinate clamped onto the grid.
    /// With `pushToWidgets` and both sliders present, write the cell's values
    /// into the sliders and notify their handlers; because the grid's own
    /// handlers map each value back to the index it came from, the cell
    /// stays the one selected. Otherwise the sliders are not touched.
    method SetGrid(xx: int, yy: int, pushToWidgets: bool)
      requires Wired()
      modifies Repr()
      ensures Valid()
      ensures gx == Clamp(xx) && gy == Clamp(yy)
      ensures randomEnabled == old(randomEnabled)
      ensures pushToWidgets ==> SlidersShowCell()
      ensures pushToWidgets && Synced() ==>
                xW.priorCalls == old(xW.priorCalls) + PriorEcho(xW, GridToValue(gx)) &&
                yW.priorCalls == old(yW.priorCalls) + PriorEcho(yW, GridToValue(gy))
      ensures !(pushToWidgets && Synced()) ==>
                (xW != null ==> unchanged(xW)) && (yW != null ==> unchanged(yW))
    {
      gx := Clamp(xx);
      gy := Clamp(yy);
      if pushToWidgets && xW != null && yW != null {
        xW.value := GridToValue(gx);
        yW.value := GridToValue(gy);
        GridToValueRoundTrip(gx);
        GridToValueRoundTrip(gy);
        OnXChange(xW.value);
        OnYChange(yW.value);
      }
      Redraw();
    }

    /// The `pointerdown` handler, given the pointer's position as fractions
    /// of the canvas's width and height: select the cell under it and push
    /// it to the sliders. A pointer off the canvas selects the nearest
    /// edge cell.
    method PointerDown(px: real, py: real)
      requires Wired()
      modifies Repr()
      ensures Valid() && SlidersShowCell()
      ensures gx == Clamp(PointerIndex(px)) && gy == Clamp(PointerIndex(py))
      ensures 0.0 <= px < 1.0 ==> gx == PointerIndex(px)
      ensures 0.0 <= py < 1.0 ==> gy == PointerIndex(py)
      ensures randomEnabled == old(randomEnabled)
      ensures Synced() ==>
                xW.priorCalls == old(xW.priorCalls) + PriorEcho(xW, GridToValue(gx)) &&
                yW.priorCalls == old(yW.priorCalls) + PriorEcho(yW, GridToValue(gy))
      ensures !Synced() ==> (xW != null ==> unchanged(xW)) && (yW != null ==> unchanged(yW))
    {
      SetGrid(PointerIndex(px), PointerIndex(py), true);
    }

    /// `naidRandomize`, with the two random draws `Math.floor(Math.random()
    /// * 5)` given as `rx` and `ry`: select that cell and push it to the
    /// sliders.
    method Randomize(rx: int, ry: int)
      requires Wired() && InIndexRange(rx) && InIndexRange(ry)
      modifies Repr()
      ensures Valid() && SlidersShowCell()
      ensures gx == rx && gy == ry
      ensures randomEnabled == old(randomEnabled)
      ensures Synced() ==>
                xW.priorCalls == old(xW.priorCalls) + PriorEcho(xW, GridToValue(rx)) &&
                yW.priorCalls == old(yW.priorCalls) + PriorEcho(yW, GridToValue(ry))
      ensures !Synced() ==> (xW != null ==> unchanged(xW)) && (yW != null ==> unchanged(yW))
    {
      SetGrid(rx, ry, true);
    }

    /// The "Random" checkbox's `onchange`: record the flag and, when it was
    /// switched on, randomize once as a preview (with draws `rx`, `ry`).
    method SetRandomEnabled(checked: bool, rx: int, ry: int)
      requires Wired() && InIndexRange(rx) && InIndexRange(ry)
      requires Valid()
      modifies Repr()
      ensures Valid()
      ensures randomEnabled == checked
      ensures checked ==> gx == rx && gy == ry && SlidersShowCell()
      ensures checked && Synced() ==>
                xW.priorCalls == old(xW.priorCalls) + PriorEcho(xW, GridToValue(rx)) &&
                yW.priorCalls == old(yW.priorCalls) + PriorEcho(yW, GridToValue(ry))
      ensures checked && !Synced() ==> (xW != null ==> unchanged(xW)) && (yW != null ==> unchanged(yW))
      ensures !checked ==> gx == old(gx) && gy == old(gy)
      ensures !checked ==> (xW != null ==> unchanged(xW)) && (yW != null ==> unchanged(yW))
    {
      randomEnabled := checked;
      if randomEnabled {
        Randomize(rx, ry);
      }
    }
  }
}
