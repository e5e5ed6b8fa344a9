/** The preset lists: the demo bank and the layout of selection buttons. */
module List {
  import opened Curves
  import opened GuiEvents
  import Decimal

  /** The demo bank of `n` presets: preset `i` is named "Test i" and has the
      two-node curve (0, 0), (i/50, i/50). The source's f32 rounding of i/50
      is not modelled. */
  function TestPresets(n: nat): (r: seq<Preset>)
    ensures |r| == n
    ensures forall i :: 0 <= i < n ==> r[i].name == "Test " + Decimal.DecimalString(i)
    ensures forall i :: 0 <= i < n ==>
      && |r[i].curve.nodes| == 2
      && r[i].curve.nodes[0] == Node(0.0, 0.0)
      && r[i].curve.nodes[1].x == r[i].curve.nodes[1].y == i as real / 50.0
  {
    seq(n, i requires 0 <= i => Preset("Test " + Decimal.DecimalString(i),
                                      Curve([Node(0.0, 0.0), Node(i as real / 50.0, i as real / 50.0)])))
  }

  /** No two demo presets share a name: the name determines the index. */
  lemma TestPresetNamesDistinct(n: nat, i: nat, j: nat)
    requires i < n && j < n && i != j
    ensures TestPresets(n)[i].name != TestPresets(n)[j].name
  {
    var ps := TestPresets(n);
    if ps[i].name == ps[j].name {
      assert ps[i].name[5..] == Decimal.DecimalString(i);
      assert ps[j].name[5..] == Decimal.DecimalString(j);
      Decimal.DecimalStringInjective(i, j);
    }
  }

  /** A selection button. Its label is bound lazily to the name of slot
      `labelSlot` of the list it belongs to; pressing it emits `onPress`. */
  datatype Button = Button(labelSlot: nat, onPress: PresetEvent)

  /** The button for slot `index` of the `mode` list. */
  function FunctorButton(mode: Mode, index: nat): Button {
    Button(index, Select(mode, index))
  }

  /** The text a button shows, read through its binding into `presets`. */
  function Label(b: Button, presets: seq<Preset>): string
    requires b.labelSlot < |presets|
  {
    presets[b.labelSlot].name
  }

  /** The buttons for slots lo, lo + 1, ..., hi - 1, in that order. */
  function ButtonRange(mode: Mode, lo: nat, hi: nat): seq<Button>
    requires lo <= hi
  {
    seq(hi - lo, k requires 0 <= k => FunctorButton(mode, lo + k))
  }

  /** All rows of a layout, read left to right and top to bottom. */
  function Flatten(rows: seq<seq<Button>>): seq<Button>
    decreases |rows|
  {
    if rows == [] then [] else Flatten(rows[..|rows| - 1]) + rows[|rows| - 1]
  }

  lemma FlattenAppend(rows: seq<seq<Button>>, row: seq<Button>)
    ensures Flatten(rows + [row]) == Flatten(rows) + row
  {
    assert (rows + [row])[..|rows|] == rows;
  }

  lemma ButtonRangeConcat(mode: Mode, lo: nat, mid: nat, hi: nat)
    requires lo <= mid <= hi
    ensures ButtonRange(mode, lo, mid) + ButtonRange(mode, mid, hi) == ButtonRange(mode, lo, hi)
  {
  }

  /** The layout of a list of `listLen` presets: `listLen / 3` full rows of
      three buttons, then one trailing row of `listLen % 3` buttons, which is
      empty when `listLen` is a multiple of three. */
  method FunctorList(mode: Mode, listLen: nat) returns (rows: seq<seq<Button>>)
    ensures |rows| == listLen / 3 + 1
    ensures forall r :: 0 <= r < listLen / 3 ==> rows[r] == ButtonRange(mode, 3 * r, 3 * r + 3)
    ensures rows[listLen / 3] == ButtonRange(mode, 3 * (listLen / 3), listLen)
    ensures |rows[listLen / 3]| == listLen % 3
    ensures Flatten(rows) == ButtonRange(mode, 0, listLen)
    ensures |Flatten(rows)| == listLen
    ensures forall k :: 0 <= k < listLen ==>
      Flatten(rows)[k].onPress == Select(mode, k) && Flatten(rows)[k].labelSlot == k
  {
    rows := [];
    var row := 0;
    while row < listLen / 3
      invariant row <= listLen / 3
      invariant |rows| == row
      invariant forall r :: 0 <= r < row ==> rows[r] == ButtonRange(mode, 3 * r, 3 * r + 3)
      invariant Flatten(rows) == ButtonRange(mode, 0, 3 * row)
    {
      var stack: seq<Button> := [];
      for col := 0 to 3
        invariant stack == ButtonRange(mode, 3 * row, 3 * row + col)
      {
        stack := stack + [FunctorButton(mode, 3 * row + col)];
      }
      FlattenAppend(rows, stack);
      ButtonRangeConcat(mode, 0, 3 * row, 3 * row + 3);
      rows := rows + [stack];
      row := row + 1;
    }
    var full := listLen / 3;
    var stack: seq<Button> := [];
    for col := 0 to listLen % 3
      invariant stack == ButtonRange(mode, 3 * full, 3 * full + col)
    {
      stack := stack + [FunctorButton(mode, 3 * full + col)];
    }
    FlattenAppend(rows, stack);
    ButtonRangeConcat(mode, 0, 3 * full, listLen);
    rows := rows + [stack];
  }
}
