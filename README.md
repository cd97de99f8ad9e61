# NAID Grid Position — a Dafny model

The "NAID Grid Position" node shows a 5x5 grid picker that stays in step with
the node's two numeric sliders, `x` and `y`. This project models its logic in
`web/grid_position.js`:

- the mapping between a cell index 0..4 and the slider values 0.1, 0.3, 0.5,
  0.7, 0.9, and from a pointer position to a cell (`grid_mapping.dfy`);
- the label `A1`..`E5` shown under the grid (`grid_label.dfy`);
- one node's state: the selected cell `(gx, gy)`, what `redraw` shows, the
  "Random" flag, and the sliders it reads and writes. This is a class whose
  methods are the event handlers: creation, slider changes, pointer-down,
  randomize, the checkbox, and `setGrid` (`grid_widget.dfy`);
- the pass that runs before each prompt is built. It randomizes every grid
  node whose "Random" box is ticked (`prompt_hook.dfy`).

Slider values are exact `real`s. The source's `(i * 0.2 + 0.1).toFixed(2)`
is therefore just `i * 0.2 + 0.1`. `Math.round` is `floor(x + 0.5)`, which
rounds halves up as JavaScript does. Pointer positions are given as fractions
of the canvas width and height. The random draws `Math.floor(Math.random() *
5)` are given as parameters in 0..4.

The host's sliders are objects shared with the host. Each slider has a
`value`. It may also have an `onChange` handler that was installed before the
grid wrapped it. That earlier handler is outside this code, so the model
records only the values it is called with (`Slider.priorCalls`). The node's
own handlers are methods of `GridNode`. `setGrid` calls them after writing
the sliders, as the source does. The round-trip lemma is what proves that
this re-entry leaves the selected cell unchanged.

`Math.floor(px * 5)` and `gridToValue` do not clamp; `setGrid` clamps both
coordinates, and `PointerAgreesWithSlider` relates the clamped pointer index
to `valueToGrid`.

## Model

| member | source | states |
|---|---|---|
| GridMapping.Clamp | web/grid_position.js:88-89 | the result is always an index 0..4; an index already in range is kept; below 0 gives 0, above 4 gives 4 |
| GridMapping.GridToValue | web/grid_position.js:53-56 | index i in 0..4 maps to the i-th of the steps 0.1, 0.3, 0.5, 0.7, 0.9, so every result lies in [0.1, 0.9] |
| GridMapping.Round | web/grid_position.js:59 | `Math.round` gives the integer r with r - 0.5 <= x < r + 0.5, that is, the nearest integer with halves rounded up |
| GridMapping.ValueToGrid | web/grid_position.js:58-61 | any slider value, in range or not, yields an index in 0..4 |
| GridMapping.ValueToGridBands | web/grid_position.js:58-61 | value v selects index k if and only if v lies in k's band: from the midpoint below step k, inclusive, to the midpoint above it, exclusive; the bands of 0 and 4 extend without bound |
| GridMapping.ValueToGridClamps | web/grid_position.js:58-61 | values below 0.1 select index 0 and values above 0.9 select index 4, with no failure |
| GridMapping.GridToValueRoundTrip | web/grid_position.js:53-61 | for every index i in 0..4, valueToGrid(gridToValue(i)) == i |
| GridMapping.ValueToGridFixedPoints | web/grid_position.js:53-61 | gridToValue(valueToGrid(v)) == v holds exactly when v is one of the five steps |
| GridMapping.ValueToGridNearest | web/grid_position.js:58-61 | the selected step is at least as close to v as every other step, so values snap to the nearest step |
| GridMapping.ValueToGridMonotone | web/grid_position.js:58-61 | a larger slider value never selects a smaller index |
| GridMapping.PointerIndex | web/grid_position.js:124-127 | a fraction in [0,1) gives an index 0..4; a negative fraction gives an index below 0; a fraction of 1 or more gives one above 4 |
| GridMapping.PointerIndexBands | web/grid_position.js:124-127 | inside the canvas, a pointer selects index k exactly when k/5 <= frac < (k+1)/5 |
| GridMapping.PointerAgreesWithSlider | web/grid_position.js:124-128 | after setGrid's clamp, a pointer at fraction p selects the same index as a slider value equal to p |
| GridLabel.DecimalText | web/grid_position.js:80-81 | the rendered row number is a non-empty string of decimal digits whose value is the number; numbers below 10 render as one character |
| GridLabel.Label | web/grid_position.js:79-81 | a cell's label is two characters: a letter A..E, then a digit 1..5 |
| GridLabel.ParseLabel | web/grid_position.js:79-81 | the inverse reading of a label: a cell on the grid exactly for strings of a letter A..E followed by a digit 1..5 |
| GridLabel.LabelRoundTrip | web/grid_position.js:79-81 | a cell's label reads back as that same cell |
| GridLabel.ParseLabelRoundTrip | web/grid_position.js:79-81 | every readable label is the label of the cell it reads as, so the labels are exactly A1..E5 |
| GridLabel.LabelInjective | web/grid_position.js:79-81 | distinct cells have distinct labels |
| GridLabel.CornerLabels | web/grid_position.js:79-81 | cell (0,0) is labelled "A1" and cell (4,4) is labelled "E5" |
| GridWidget.PaintCells | web/grid_position.js:67-77 | the 5x5 drawing loop fills exactly one cell, the selected one, and fills none when the selection is off the grid |
| GridWidget.Slider.NotifyPrior | web/grid_position.js:114-118 | the earlier onChange handler, if any, receives the value once, and the slider's value is not changed |
| GridWidget.GridNode.constructor | web/grid_position.js:45-119 | a new node starts at the centre cell (2,2); when both sliders exist, the cell is instead read from their values; "Random" is off; the label and highlight show the cell |
| GridWidget.GridNode.Redraw | web/grid_position.js:63-85 | afterwards the label is the selected cell's label and the highlighted cells are exactly [the selected cell] |
| GridWidget.GridNode.OnXChange | web/grid_position.js:114-115 | an x slider change to v passes v to the earlier handler, sets gx to valueToGrid(v), leaves gy, the y slider and the x value unchanged, and redraws |
| GridWidget.GridNode.OnYChange | web/grid_position.js:117-118 | a y slider change to v passes v to the earlier handler, sets gy to valueToGrid(v), leaves gx, the x slider and the y value unchanged, and redraws |
| GridWidget.GridNode.SetGrid | web/grid_position.js:87-105 | gx and gy become the clamped arguments; with pushToWidgets and both sliders present, x.value == gridToValue(gx), y.value == gridToValue(gy), and each earlier handler sees its value once; otherwise neither slider changes |
| GridWidget.GridNode.PointerDown | web/grid_position.js:122-129 | the cell becomes (clamp(floor(5px)), clamp(floor(5py))), which is floor(5p) for fractions in [0,1); with both sliders present they hold the cell's values and each earlier handler sees its value once; with a slider missing, neither slider changes |
| GridWidget.GridNode.Randomize | web/grid_position.js:150-154 | the cell becomes the drawn (rx, ry) in 0..4; with both sliders present they hold that cell's values and each earlier handler sees its value once; with a slider missing, neither slider changes |
| GridWidget.GridNode.SetRandomEnabled | web/grid_position.js:156-159 | the flag takes the checkbox state; ticking the box randomizes once, with the same slider and handler effects as Randomize; unticking it changes neither the cell nor the sliders |
| PromptHook.SettleNode | web/grid_position.js:177-179 | a grid node with "Random" ticked is randomized to the draw: with both sliders present they take the cell's values and the earlier handlers' logs grow by those values; with a slider missing, neither slider changes; a node without the box ticked is left exactly as it was |
| PromptHook.RandomizeBeforePrompt | web/grid_position.js:175-180 | every grid node in the graph is settled by its own draw as SettleNode states, so only nodes with "Random" ticked change, and each changes only its own state and sliders |

## Left out

- DOM and canvas work: element creation, styles, `devicePixelRatio`, `setTransform`, `clearRect` and `strokeRect`. Only the filled cell and the label text are kept.
- Pointer geometry (`getBoundingClientRect`, client coordinates): the handler takes the fractions `px` and `py` directly.
- Randomness: the draws are parameters in 0..4. The model does not state that they are uniform.
- Floating point: `toFixed(2)`, `Number(v)` on input that is not a number (NaN through `Math.min` and `Math.max`), infinities, and the `?? 0.5` default for a missing slider value. Slider values are exact reals. At a band edge the two can differ: the double nearest 0.6 lies just below 0.6, so on that double's exact value the model picks index 2, while the source's rounded arithmetic computes 2.5 and picks 3. At 0.2, 0.4 and 0.8 both pick the same index.
- GridWidget.Slider.NotifyPrior: the earlier `onChange` handler is code outside this project. The model assumes it only receives the value and changes nothing the grid reads. Its ordering before the grid's own update cannot be seen in the model's state.
- GridWidget.GridNode.OnXChange, GridWidget.GridNode.OnYChange: the model takes a slider's own value to be updated by the host, not by these handlers. The handlers exist only when both sliders were present at creation, which is what their precondition says.
- Which widgets exist is fixed when the node is created. The source looks the sliders up again on every `setGrid`. Widgets added or removed later are not modelled.
- Host integration: `registerExtension`, the chaining of `onNodeCreated`, `addDOMWidget`, `setDirtyCanvas`, the removal of a legacy "random" widget or input, the once-only patch guard on `graphToPrompt`, the call to the original `graphToPrompt`, and the try/catch around the pass. In the pass, a graph entry that is not a grid node is represented by `null`.
- `grid_position.py` and `__init__.py`: node declaration and registration only; they hold no logic to verify.
