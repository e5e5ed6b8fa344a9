# Functor preset bank, modelled in Dafny

Functor is an audio-plugin editor for picking, viewing and, eventually,
editing curves: named sequences of 2-D control points that shape beat (timestretch)
and volume (gating) behaviour. Its only real logic is the preset bank. The
editor's state holds two preset collections, beat and volume, and a selection
cursor `(mode, index)`. Two events change that state:

- `Select` moves the cursor and checks nothing.
- `Set` overwrites one slot when the slot exists, and otherwise does nothing.

No widget in the editor as written emits `Set`; the only event any widget
sends is the list buttons' `Select` (`src/gui/list.rs:63`). `Gui.Replace`, the
`Set` branch of `Gui.Apply`, `Gui.AppData.Set` and the `Set` lemmas in
`Gui` and `Protocol` describe the handler as it behaves once something sends
the event.

The lists lay out one selection button per slot in rows of three. The curve
view draws the nodes of the curve under the cursor.

The model has one module per source file, plus two more:

- `Curves` (`curve.dfy`): the value types. `Node` is any pair of reals, with
  no range constraint. `Curve` is an ordered node sequence and may be empty.
  `Mode` is a closed enumeration with exactly the values `Beat` and `Vol`.
  `Preset` is a name and a curve. All four are datatypes, so copying one
  never creates an alias. `Curve::iter` returns the node vector's own
  iterator, so iterating a curve visits exactly `nodes`, in order. The model
  therefore uses `nodes` directly and has no separate member for `iter`.
- `GuiEvents` (`events.dfy`) and `Gui` (`gui.dfy`): `src/gui/mod.rs`. The
  event type sits in a module of its own because `list.rs` uses the event type
  while `mod.rs` uses `test_presets`. In one module that would be an import
  cycle. `Gui.AppData` is a class whose fields the event handler updates in
  place. `Gui.Bank` is the value of those fields. `Gui.Apply` gives the
  meaning of one event on a `Bank`. `AppData.Event` is proved to do exactly
  what `Apply` says.
- `List` (`list.dfy`): `src/gui/list.rs`, the demo bank, the selection
  buttons and the row layout. `FunctorList` is a method with the source's
  nested loops.
- `Decimal` (`decimal.dfy`): the decimal rendering that `format!("Test {}", i)`
  applies to `i`. It comes with a parser, and parsing is proved to undo
  rendering.
- `CurveView` (`curve_view.dfy`): `src/gui/curve_view.rs`, the
  selected-curve lookup. `Draw` records its calls on a `Canvas` object. The editor as written never builds a curve
  view: its construction in `src/gui/mod.rs:256-266` is commented out. So
  `CurveView`, and the `Protocol` lemmas about what "the view shows", describe
  the widget as it would behave once built.
- `Protocol` (`protocol.dfy`): lemmas that connect events, lists and the view.

## Model

| member | source | states |
|---|---|---|
| `Decimal.DecimalString` | src/gui/list.rs:12 | the rendering of a number is non-empty, all decimal digits, and has no leading zero |
| `Decimal.ParseDecimalString` | src/gui/list.rs:12 | reading the decimal rendering of `n` back gives `n` (round trip) |
| `Decimal.DecimalStringInjective` | src/gui/list.rs:12 | distinct numbers render as distinct strings |
| `List.TestPresets` | src/gui/list.rs:9-24 | `test_presets(n)` has exactly `n` presets; preset `i` is named "Test " followed by `i` in decimal; its curve has exactly two nodes, `(0, 0)` first and then `x = y = i/50` |
| `List.TestPresetNamesDistinct` | src/gui/list.rs:12 | no two demo presets share a name |
| `List.FunctorList` | src/gui/list.rs:114-128 | `n/3` full rows, row `r` holding the buttons for `3r`, `3r+1`, `3r+2`; then one trailing row, always present, holding the `n % 3` buttons from `3*(n/3)` on, which is empty when `3` divides `n`; read in order, the rows hold one button for each of `0..n-1`, each once and in increasing order; button `k` emits `Select(mode, k)` and its label is bound to slot `k` |
| `Gui.Replace` | src/gui/mod.rs:85-92 | a write keeps the collection's length; an index in bounds makes that slot the new preset; every other slot keeps its preset; an index out of bounds changes nothing |
| `Gui.Apply` | src/gui/mod.rs:79-98 | `Select` sets mode and index to the event's own values and leaves both collections and `dc` alone; `Set` leaves the cursor and `dc` alone, applies `Replace` to the collection its mode names, and leaves the other collection untouched |
| `Gui.SetOutOfRangeIsNoOp` | src/gui/mod.rs:85-92 | a `Set` whose index is out of bounds leaves the whole state exactly as it was |
| `Gui.ApplyKeepsLengths` | src/gui/mod.rs:79-98 | no event changes the length of either collection |
| `Gui.InitialBank` | src/gui/mod.rs:142-148 | the initial state has mode `Beat`, index 0 and `dc` on; each collection holds 12 presets, the cursor addresses an existing slot, and beat slot 3 is named "Test 3" |
| `Gui.AppData.constructor` | src/gui/mod.rs:142-148 | the editor starts from `Beat`, slot 0, `test_presets(12)` for both collections, `dc` on |
| `Gui.AppData.Event` | src/gui/mod.rs:77-98 | handling an event takes the state to `Apply(old state, event)` |
| `Gui.AppData.Set` | src/gui/mod.rs:85-92 | overwrites the slot in place via `Replace` on the named collection only; the cursor and `dc` cannot change (frame) |
| `Gui.AppData.Select` | src/gui/mod.rs:95-98 | sets `mode` and `index` unconditionally; neither collection nor `dc` can change (frame) |
| `CurveView.SelectedCurve` | src/gui/curve_view.rs:50-66 | the view's curve is the one at `index` in the collection that `mode` names; it is defined only while that index is in bounds |
| `CurveView.SelectedCurveReadsSelectedOnly` | src/gui/curve_view.rs:50-66 | the selected curve depends only on the mode, the index and the collection the mode names, never on the other collection |
| `CurveView.NodeMarks` | src/gui/curve_view.rs:91-93 | one mark per node, the `k`-th mark for the `k`-th node |
| `CurveView.DrawNode` | src/gui/curve_view.rs:69-75 | drawing a node adds exactly one mark for it to the canvas |
| `CurveView.Draw` | src/gui/curve_view.rs:88-98 | drawing marks each node of the selected curve once, in curve order, then strokes the view's outline |
| `Protocol.SelectThenRead` | src/gui/mod.rs:95-98 | after selecting an existing slot, the view shows exactly that slot's curve, from the collection that was selected |
| `Protocol.SetThenRead` | src/gui/mod.rs:85-92 | after a `Set` on the selected slot, the view shows the new preset's curve |
| `Protocol.SetElsewhereKeepsView` | src/gui/mod.rs:85-92 | a `Set` on any other slot of either collection leaves the view's curve unchanged |
| `Protocol.SetKeepsCursorInBounds` | src/gui/mod.rs:85-92 | a `Set` never makes a valid cursor invalid |
| `Protocol.ButtonPressSelects` | src/gui/list.rs:49-71 | button `k` shows preset `k`'s name; pressing it makes the view show preset `k`'s curve |
| `Protocol.LabelFollowsSet` | src/gui/list.rs:58-66 | a button's label is bound to its slot: after `Set(mode, k, p)` button `k` of list `mode` shows `p`'s name, and a `Set` on any other slot of either list leaves the label as it was |
| `Protocol.Scenario` | src/gui/mod.rs:142-148 | from the initial state the view shows beat preset 0; after `Select(Vol, 5)` it shows volume preset 5; after `Set(Vol, 5, p)` it shows `p`'s curve, and the beat collection still holds the demo bank |

Behaviour of the code worth knowing:

- The code always emits a trailing row of `n % 3` buttons, so a list has
  `n/3 + 1` rows. When 3 divides `n`, that last row is empty.
- `curve()` has no fallback for an out-of-range index and returns no error
  value, so `SelectedCurve` carries the bounds check as a precondition.
- An out-of-range `Set` is silently ignored and reports nothing.

## Left out

- `src/lib.rs` (plugin registration, audio layouts, VST3 identifiers, the no-op
  `process`) and `src/gui/icon.rs` (PNG decoding, GPU images): framework glue
  and foreign calls, with no logic to model.
- The `params` field of `AppData` (`Arc<FunctorParams>`): framework state that
  no event reads or writes.
- `draw_node`'s pixel mapping (`bounds.x + bounds.w * x`, the inverted `y`,
  and `as u32 - 5`): f32 arithmetic, a truncating cast and canvas calls. Each
  call is kept as one abstract `MarkNode(bounds, node)` canvas operation.
- CurveView.DrawNode: never fails, although the source can. `x as u32 - 5`
  underflows when a pixel coordinate is below 5: a panic in debug builds and
  a wrap-around in release builds. A node outside [0, 1], which the model
  allows, can reach that case. The model does not capture it.
- The outline path built in `draw` is one abstract `StrokeRect(bounds)`
  operation.
- List.TestPresets: the coordinates are the exact reals `i/50`. The f32
  rounding of `i as f32 / 50.0` is not modelled.
- Indices are `nat`, not `usize`; 64-bit wrap-around is not modelled. No index
  computed in the layout exceeds the list length.
- List.FunctorList: takes the list length as a parameter. The reactive
  `Binding` that rebuilds the rows when the length changes is not modelled.
  Neither is the `unwrap_or_default` fallback to 0 for a lens that fails.
- Widget construction, styling, sizes, font registration and the editor
  window: presentation only.
- Serde derives: serialisation happens in a library that is not part of this
  model.
- The commented-out interpolation and DC-toggle code: it is not compiled.
  `dc` is therefore never written after construction.
