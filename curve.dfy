/** The value types of the preset bank: nodes, curves, modes and presets. */
module Curves {

  /** A node of a curve. Both coordinates are conventionally in [0, 1], but
      nothing enforces a range, so any pair of reals is a node. The source
      stores them as f32; the model uses exact reals. */
  datatype Node = Node(x: real, y: real)

  /** An ordered sequence of nodes; the empty curve is allowed. Iterating a
      curve visits exactly `nodes`, in order. */
  datatype Curve = Curve(nodes: seq<Node>)

  /** Whether a preset is meant for a beat (timestretch) or a volume (gate).
      A closed enumeration with exactly these two values. */
  datatype Mode = Beat | Vol

  /** A preset is a display name (possibly empty, not unique) and a curve.
      Datatype values are immutable, so a copy can never alias the original. */
  datatype Preset = Preset(name: string, curve: Curve)
}
