/** How the event protocol, the lists and the curve view fit together. */
module Protocol {
  import opened Curves
  import opened GuiEvents
  import opened Gui
  import opened CurveView
  import List

  /** Selecting an existing slot makes the view show exactly that slot's curve. */
  lemma SelectThenRead(s: Bank, mode: Mode, index: nat)
    requires index < |Presets(s, mode)|
    ensures InBounds(Apply(s, Select(mode, index)))
    ensures SelectedCurve(Apply(s, Select(mode, index))) == Presets(s, mode)[index].curve
  {
  }

  /** Overwriting the selected slot makes the view show the new curve. */
  lemma SetThenRead(s: Bank, preset: Preset)
    requires InBounds(s)
    ensures InBounds(Apply(s, PresetEvent.Set(s.mode, s.index, preset)))
    ensures SelectedCurve(Apply(s, PresetEvent.Set(s.mode, s.index, preset))) == preset.curve
  {
  }

  /** Overwriting any other slot, of either collection, leaves the view as it was. */
  lemma SetElsewhereKeepsView(s: Bank, mode: Mode, index: nat, preset: Preset)
    requires InBounds(s)
    requires mode != s.mode || index != s.index
    ensures InBounds(Apply(s, PresetEvent.Set(mode, index, preset)))
    ensures SelectedCurve(Apply(s, PresetEvent.Set(mode, index, preset))) == SelectedCurve(s)
  {
  }

  /** A `Set` never invalidates a cursor that was in bounds, since no length changes. */
  lemma SetKeepsCursorInBounds(s: Bank, mode: Mode, index: nat, preset: Preset)
    requires InBounds(s)
    ensures InBounds(Apply(s, PresetEvent.Set(mode, index, preset)))
  {
  }

  /** Button `k` of the `mode` list shows the name of preset `k`, and pressing
      it makes the view show preset `k`'s curve. */
  lemma ButtonPressSelects(s: Bank, mode: Mode, k: nat)
    requires k < |Presets(s, mode)|
    ensures var b := List.ButtonRange(mode, 0, |Presets(s, mode)|)[k];
      && List.Label(b, Presets(s, mode)) == Presets(s, mode)[k].name
      && InBounds(Apply(s, b.onPress))
      && SelectedCurve(Apply(s, b.onPress)) == Presets(s, mode)[k].curve
  {
    assert List.ButtonRange(mode, 0, |Presets(s, mode)|)[k] == List.FunctorButton(mode, k);
  }

  /** A button's label is bound to its slot, not copied: after a `Set` on slot
      `k` of its list it shows the new preset's name, and a `Set` on any other
      slot, of either list, leaves it showing what it showed before. */
  lemma LabelFollowsSet(s: Bank, mode: Mode, k: nat, m: Mode, i: nat, p: Preset)
    requires k < |Presets(s, mode)|
    ensures var b := List.FunctorButton(mode, k);
      var t := Apply(s, PresetEvent.Set(m, i, p));
      && k < |Presets(t, mode)|
      && List.Label(b, Presets(t, mode))
         == if m == mode && i == k then p.name else List.Label(b, Presets(s, mode))
  {
  }

  /** From the initial state: the view shows beat preset 0; after selecting
      volume slot 5 it shows that slot's curve; after overwriting that slot
      it shows the new curve. */
  lemma Scenario(preset: Preset)
    ensures InBounds(Initial()) && SelectedCurve(Initial()) == List.TestPresets(12)[0].curve
    ensures var s1 := Apply(Initial(), Select(Vol, 5));
      && InBounds(s1) && SelectedCurve(s1) == List.TestPresets(12)[5].curve
      && var s2 := Apply(s1, PresetEvent.Set(Vol, 5, preset));
      && InBounds(s2) && SelectedCurve(s2) == preset.curve
      && s2.beatPresets == List.TestPresets(12)
  {
  }
}
