/** The curve view: which curve it shows and the order in which it draws. */
module CurveView {
  import opened Curves
  import opened Gui

  /** The rectangle the view occupies on screen. */
  datatype BoundingBox = BoundingBox(x: real, y: real, w: real, h: real)

  /** One canvas call. The pixel position a node maps to is not modelled. */
  datatype DrawOp = MarkNode(bounds: BoundingBox, node: Node) | StrokeRect(bounds: BoundingBox)

  /** The drawing surface, recorded as the calls made on it so far. */
  class Canvas {
    var ops: seq<DrawOp>

    constructor ()
      ensures ops == []
    {
      ops := [];
    }
  }

  /** The cursor addresses an existing slot of the collection its mode names. */
  predicate InBounds(s: Bank) {
    s.index < |Presets(s, s.mode)|
  }

  /** The curve of the selected preset. Indexing has no fallback, so it is
      defined only for a cursor in bounds. */
  function SelectedCurve(s: Bank): (c: Curve)
    requires InBounds(s)
    ensures c == Presets(s, s.mode)[s.index].curve
  {
    match s.mode
    case Beat => s.beatPresets[s.index].curve
    case Vol => s.volPresets[s.index].curve
  }

  /** The selected curve depends only on the mode, the index and the
      collection the mode names. */
  lemma SelectedCurveReadsSelectedOnly(s: Bank, t: Bank)
    requires InBounds(s)
    requires s.mode == t.mode && s.index == t.index && Presets(s, s.mode) == Presets(t, t.mode)
    ensures InBounds(t) && SelectedCurve(t) == SelectedCurve(s)
  {
  }

  /** The canvas calls for a sequence of nodes: one mark per node, in order. */
  function NodeMarks(bounds: BoundingBox, nodes: seq<Node>): (ops: seq<DrawOp>)
    ensures |ops| == |nodes|
    ensures forall k :: 0 <= k < |nodes| ==> ops[k] == MarkNode(bounds, nodes[k])
    decreases |nodes|
  {
    if nodes == [] then [] else NodeMarks(bounds, nodes[..|nodes| - 1]) + [MarkNode(bounds, nodes[|nodes| - 1])]
  }

  /** Marks one node on the canvas. */
  method DrawNode(bounds: BoundingBox, canvas: Canvas, node: Node)
    modifies canvas
    ensures canvas.ops == old(canvas.ops) + [MarkNode(bounds, node)]
  {
    canvas.ops := canvas.ops + [MarkNode(bounds, node)];
  }

  /** Draws the selected curve: each of its nodes once, in curve order, then
      the outline of the view. */
  method Draw(s: Bank, bounds: BoundingBox, canvas: Canvas)
    requires InBounds(s)
    modifies canvas
    ensures canvas.ops == old(canvas.ops) + NodeMarks(bounds, SelectedCurve(s).nodes) + [StrokeRect(bounds)]
  {
    var nodes := SelectedCurve(s).nodes;
    for i := 0 to |nodes|
      invariant canvas.ops == old(canvas.ops) + NodeMarks(bounds, nodes[..i])
    {
      assert nodes[..i + 1][..i] == nodes[..i];
      DrawNode(bounds, canvas, nodes[i]);
    }
    assert nodes[..|nodes|] == nodes;
    canvas.ops := canvas.ops + [StrokeRect(bounds)];
  }
}
