/** The events the editor's widgets send to the preset bank. */
module GuiEvents {
  import opened Curves

  /** An event relating to a preset. Both indices are unsigned and unchecked
      at construction time. */
  datatype PresetEvent =
    /** Overwrite slot `index` of the `mode` collection with `preset`. */
    | Set(mode: Mode, index: nat, preset: Preset)
    /** Move the selection cursor to `(mode, index)`. */
    | Select(mode: Mode, index: nat)
}
