/** The editor's application state: two preset collections, a selection
    cursor, and the handler that applies preset events to them. */
module Gui {
  import opened Curves
  import opened GuiEvents
  import List

  /** The value of the application state at one moment. */
  datatype Bank = Bank(mode: Mode, index: nat, beatPresets: seq<Preset>, volPresets: seq<Preset>, dc: bool)

  /** The collection a mode names. */
  function Presets(s: Bank, mode: Mode): seq<Preset> {
    match mode
    case Beat => s.beatPresets
    case Vol => s.volPresets
  }

  function Other(mode: Mode): (m: Mode)
    ensures m != mode
  {
    match mode
    case Beat => Vol
    case Vol => Beat
  }

  /** Overwrites slot `index` of a collection when it exists; an index past
      the end leaves the collection as it was (neither grown nor reported). */
  function Replace(ps: seq<Preset>, index: nat, preset: Preset): (r: seq<Preset>)
    ensures |r| == |ps|
    ensures index < |ps| ==> r[index] == preset
    ensures forall j :: 0 <= j < |ps| && j != index ==> r[j] == ps[j]
  {
    if index < |ps| then ps[index := preset] else ps
  }

  /** The effect of one preset event on the state. */
  function Apply(s: Bank, e: PresetEvent): (r: Bank)
    ensures r.dc == s.dc
    ensures e.Select? ==>
      && r.mode == e.mode && r.index == e.index
      && r.beatPresets == s.beatPresets && r.volPresets == s.volPresets
    ensures e.Set? ==>
      && r.mode == s.mode && r.index == s.index
      && Presets(r, e.mode) == Replace(Presets(s, e.mode), e.index, e.preset)
      && Presets(r, Other(e.mode)) == Presets(s, Other(e.mode))
  {
    match e
    case Set(mode, index, preset) =>
      (match mode
       case Beat => s.(beatPresets := Replace(s.beatPresets, index, preset))
       case Vol => s.(volPresets := Replace(s.volPresets, index, preset)))
    case Select(mode, index) => s.(mode := mode, index := index)
  }

  /** Out of bounds, `Set` changes nothing at all. */
  lemma SetOutOfRangeIsNoOp(s: Bank, mode: Mode, index: nat, preset: Preset)
    requires index >= |Presets(s, mode)|
    ensures Apply(s, PresetEvent.Set(mode, index, preset)) == s
  {
  }

  /** No event changes the length of either collection. */
  lemma ApplyKeepsLengths(s: Bank, e: PresetEvent, mode: Mode)
    ensures |Presets(Apply(s, e), mode)| == |Presets(s, mode)|
  {
  }

  /** The state the editor starts in: beat mode, slot 0, twelve demo presets
      in each collection, DC offset on. */
  function Initial(): Bank {
    Bank(Beat, 0, List.TestPresets(12), List.TestPresets(12), true)
  }

  /** The initial cursor is (Beat, 0) and addresses an existing slot; both
      collections hold twelve presets; slot 3 of the beat list is "Test 3". */
  lemma InitialBank()
    ensures Initial().mode == Beat && Initial().index == 0 && Initial().dc
    ensures |Initial().beatPresets| == 12 && |Initial().volPresets| == 12
    ensures Initial().index < |Presets(Initial(), Initial().mode)|
    ensures Initial().beatPresets[3].name == "Test 3"
  {
  }

  /** The editor's data. Widgets change it only through `Event`. */
  class AppData {
    var mode: Mode
    var index: nat
    var beatPresets: seq<Preset>
    var volPresets: seq<Preset>
    var dc: bool

    function View(): Bank
      reads this
    {
      Bank(mode, index, beatPresets, volPresets, dc)
    }

    constructor ()
      ensures View() == Initial()
    {
      mode := Beat;
      index := 0;
      beatPresets := List.TestPresets(12);
      volPresets := List.TestPresets(12);
      dc := true;
    }

    /** Handles one preset event. */
    method Event(e: PresetEvent)
      modifies this
      ensures View() == Apply(old(View()), e)
    {
      match e
      case Set(m, i, p) => this.Set(m, i, p);
      case Select(m, i) => this.Select(m, i);
    }

    /** Replaces slot `i` of the `m` collection in place, if it exists. */
    method Set(m: Mode, i: nat, p: Preset)
      modifies this`beatPresets, this`volPresets
      ensures beatPresets == if m == Beat then Replace(old(beatPresets), i, p) else old(beatPresets)
      ensures volPresets == if m == Vol then Replace(old(volPresets), i, p) else old(volPresets)
    {
      match m
      case Beat =>
        if i < |beatPresets| {
          beatPresets := beatPresets[i := p];
        }
      case Vol =>
        if i < |volPresets| {
          volPresets := volPresets[i := p];
        }
    }

    /** Moves the cursor, without checking `i` against any length. */
    method Select(m: Mode, i: nat)
      modifies this`mode, this`index
      ensures mode == m && index == i
    {
      mode := m;
      index := i;
    }
  }
}
