/**
 The state the map screen keeps between recompositions: the loaded
 records, the record whose info window is open, and the seven checkboxes.
 Loading, clicking a marker, dismissing the window and ticking a checkbox
 are the transitions.
 */
module Screen {

  import opened Wrappers
  import opened Repeaters
  import opened Features
  import opened Filters

  /** The name of the first clicked feature, or none when the click hit no
      feature. */
  function ClickedName(features: seq<Feature>): (r: Option<string>)
    ensures r.None? <==> features == []
    ensures r.Some? ==> r.value == features[0].properties.name
  {
    if features == [] then None else Some(features[0].properties.name)
  }

  class MapScreen {
    var allRepeaters: seq<RepeaterItem>
    var selectedRepeater: Option<RepeaterItem>

    var checkedWorking: bool
    var checkedStopped: bool
    var checkedPlanned: bool
    var checked70cm: bool
    var checked2m: bool
    var checked6m: bool
    var checked10m: bool

    /** The checkbox states as one value. */
    function CurrentToggles(): Toggles
      reads this
    {
      Toggles(checkedWorking, checkedStopped, checkedPlanned, checked70cm, checked2m, checked6m, checked10m)
    }

    /** The screen before loading: no records, nothing selected, every box
        checked. */
    constructor ()
      ensures allRepeaters == [] && selectedRepeater == None
      ensures CurrentToggles() == DefaultToggles
    {
      allRepeaters := [];
      selectedRepeater := None;
      checkedWorking, checkedStopped, checkedPlanned := true, true, true;
      checked70cm, checked2m, checked6m, checked10m := true, true, true, true;
    }

    /** The one-shot load publishes its result; `items` is what the loader
        returned (an empty list on any failure). */
    method Loaded(items: seq<RepeaterItem>)
      modifies this
      ensures allRepeaters == items
      ensures selectedRepeater == old(selectedRepeater) && CurrentToggles() == old(CurrentToggles())
    {
      allRepeaters := items;
    }

    /** The features the map source is built from. */
    function RenderedFeatures(): (r: seq<Feature>)
      reads this
      ensures |r| <= |allRepeaters|
      ensures |r| == |allRepeaters| <==> forall i :: 0 <= i < |allRepeaters| ==> HasPosition(allRepeaters[i])
    {
      ToFeatures(allRepeaters)
    }

    /** A click on the symbol layer. A click that names a feature selects
        the first record with that callsign, or nothing if none has it; a
        click without a name leaves the selection as it was. */
    method OnClick(features: seq<Feature>)
      modifies this
      ensures ClickedName(features).Some? ==>
        selectedRepeater == Find(allRepeaters, ClickedName(features).value)
      ensures ClickedName(features).None? ==> selectedRepeater == old(selectedRepeater)
      ensures selectedRepeater.Some? && ClickedName(features).Some? ==>
        selectedRepeater.value in allRepeaters && selectedRepeater.value.callsign == ClickedName(features).value
      ensures allRepeaters == old(allRepeaters) && CurrentToggles() == old(CurrentToggles())
    {
      var name := ClickedName(features);
      if name.Some? {
        selectedRepeater := Find(allRepeaters, name.value);
      }
    }

    /** A tap on the dimmed background or on the close icon closes the info
        window. */
    method Dismiss()
      modifies this
      ensures selectedRepeater == None
      ensures allRepeaters == old(allRepeaters) && CurrentToggles() == old(CurrentToggles())
    {
      selectedRepeater := None;
    }

    /** A checkbox changes; nothing else does. */
    method SetChecked(id: Toggle, v: bool)
      modifies this
      ensures CurrentToggles() == Set(old(CurrentToggles()), id, v)
      ensures allRepeaters == old(allRepeaters) && selectedRepeater == old(selectedRepeater)
    {
      match id
      case Working => checkedWorking := v;
      case Off => checkedStopped := v;
      case Planned => checkedPlanned := v;
      case Band70cm => checked70cm := v;
      case Band2m => checked2m := v;
      case Band6m => checked6m := v;
      case Band10m => checked10m := v;
    }

    /** The filter the symbol layer is drawn with under the current
        checkboxes. */
    method CurrentFilter() returns (f: Filter)
      ensures forall p :: Matches(f, p) <==> Passes(CurrentToggles(), p)
    {
      f := CompileFilter(CurrentToggles());
    }
  }

  /** Clicking a marker of the map finds a record that carries the marker's
      name; when callsigns are unique it is the very record the marker was
      built from. */
  lemma {:induction false} ClickFindsSourceRecord(items: seq<RepeaterItem>, k: int) returns (i: nat)
    requires 0 <= k < |ToFeatures(items)|
    ensures i < |items| && Projects(ToFeatures(items)[k], items[i])
    ensures Find(items, ToFeatures(items)[k].properties.name).Some?
    ensures (forall j1, j2 :: 0 <= j1 < j2 < |items| ==> items[j1].callsign != items[j2].callsign) ==>
      Find(items, ToFeatures(items)[k].properties.name) == Some(items[i])
  {
    var idx := ToFeaturesIsOrderedFilter(items);
    i := idx[k];
    assert items[i].callsign == ToFeatures(items)[k].properties.name;
    if forall j1, j2 :: 0 <= j1 < j2 < |items| ==> items[j1].callsign != items[j2].callsign {
      FindOwnCallsign(items, i);
    }
  }

  /** One working 2m repeater placed at latitude 50, longitude 18: the map
      gets one feature for it, shown with only "working" and 2m checked and
      hidden with only "working" and 70cm checked. */
  lemma SingleRepeaterScenario()
    ensures var item := RepeaterItem("SR1XYZ", "working", 145.6, 145.0, [50.0, 18.0], None, None, None);
      ToFeatures([item]) == [Feature(Position(18.0, 50.0), Properties("SR1XYZ", 145.6, 145.0, "working"))]
    ensures Passes(Toggles(true, false, false, false, true, false, false), Properties("SR1XYZ", 145.6, 145.0, "working"))
    ensures !Passes(Toggles(true, false, false, true, false, false, false), Properties("SR1XYZ", 145.6, 145.0, "working"))
  {
  }

  /** A click whose first hit is a marker the screen rendered always opens
      an info window, for a record carrying that marker's name, whatever
      other features lie under the tap. */
  lemma ClickOnRenderedMarker(screen: MapScreen, k: int, features: seq<Feature>)
    requires 0 <= k < |screen.RenderedFeatures()|
    requires |features| > 0 && features[0] == screen.RenderedFeatures()[k]
    ensures ClickedName(features).Some?
    ensures var name := ClickedName(features).value;
      Find(screen.allRepeaters, name).Some? && Find(screen.allRepeaters, name).value.callsign == name
  {
    var i := ClickFindsSourceRecord(screen.allRepeaters, k);
    var name := ClickedName(features).value;
    assert name == ToFeatures(screen.allRepeaters)[k].properties.name;
    var r := Find(screen.allRepeaters, name);
    var j :| FirstMatch(screen.allRepeaters, name, j) && screen.allRepeaters[j] == r.value;
  }
}
