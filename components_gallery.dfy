/**
 * The component gallery's own selection logic on top of the shared hash
 * routing: which controls the selected component lists, and which option of a
 * control is highlighted.
 */
module ComponentsGallery {
  import opened Optional
  import HashRouting

  /** A gallery entry: its id and the ids of the controls it offers. */
  datatype NavItem = NavItem(id: string, controls: seq<string>)

  /** The ids of the nav entries, in order. */
  function Ids(nav: seq<NavItem>): (ids: seq<string>)
    ensures |ids| == |nav| && forall i :: 0 <= i < |nav| ==> ids[i] == nav[i].id
  {
    seq(|nav|, i requires 0 <= i < |nav| => nav[i].id)
  }

  /** The position of the first entry with that id at or after `from`. */
  function FindIndexFrom(nav: seq<NavItem>, id: string, from: nat): (r: Option<nat>)
    ensures r.Some? ==> from <= r.value < |nav| && nav[r.value].id == id &&
                        forall k :: from <= k < r.value ==> nav[k].id != id
    ensures r.None? ==> forall k :: from <= k < |nav| ==> nav[k].id != id
    decreases |nav| - from
  {
    if from >= |nav| then None
    else if nav[from].id == id then Some(from)
    else FindIndexFrom(nav, id, from + 1)
  }

  /** `nav.find((item) => item.id === id)`: the first entry with that id. */
  function FindItem(nav: seq<NavItem>, id: string): (r: Option<NavItem>)
    ensures r.Some? <==> exists i :: 0 <= i < |nav| && nav[i].id == id
    ensures r.Some? ==> exists i :: 0 <= i < |nav| && nav[i] == r.value && r.value.id == id &&
                                     forall k :: 0 <= k < i ==> nav[k].id != id
  {
    match FindIndexFrom(nav, id, 0)
    case Some(i) => Some(nav[i])
    case None => None
  }

  /**
   * `activeControls`: the controls of the first entry whose id is the selection,
   * or none when no entry has that id.
   */
  function ActiveControls(nav: seq<NavItem>, activeId: string): (controls: seq<string>)
    ensures (exists i :: 0 <= i < |nav| && nav[i].id == activeId) ==>
      exists i :: 0 <= i < |nav| && nav[i].id == activeId && controls == nav[i].controls &&
                  forall k :: 0 <= k < i ==> nav[k].id != activeId
    ensures (forall i :: 0 <= i < |nav| ==> nav[i].id != activeId) ==> controls == []
  {
    match FindItem(nav, activeId)
    case Some(item) => item.controls
    case None => []
  }

  /**
   * The highlight state of a control's option buttons: an option is marked
   * active exactly when its value equals the control's current value.
   */
  function OptionFlags(optionValues: seq<string>, current: string): (flags: seq<bool>)
    ensures |flags| == |optionValues|
    ensures forall i :: 0 <= i < |flags| ==> (flags[i] <==> optionValues[i] == current)
  {
    seq(|optionValues|, i requires 0 <= i < |optionValues| => optionValues[i] == current)
  }

  predicate Distinct(values: seq<string>) {
    forall i, j :: 0 <= i < j < |values| ==> values[i] != values[j]
  }

  /**
   * With distinct option values at most one button is highlighted, and exactly one
   * when the current value is among the options.
   */
  lemma {:induction false} AtMostOneActiveOption(optionValues: seq<string>, current: string)
    requires Distinct(optionValues)
    ensures forall i, j :: (0 <= i < |optionValues| && 0 <= j < |optionValues| &&
                            OptionFlags(optionValues, current)[i] && OptionFlags(optionValues, current)[j]) ==> i == j
    ensures current in optionValues <==> exists i :: 0 <= i < |optionValues| && OptionFlags(optionValues, current)[i]
  {
    var flags := OptionFlags(optionValues, current);
    if current in optionValues {
      var i :| 0 <= i < |optionValues| && optionValues[i] == current;
      assert flags[i];
    }
  }

  /**
   * With the gallery's nav the selection read from any hash, or from the hash the
   * write-back produced, is a listed component, so its controls are the ones that
   * entry declares.
   */
  lemma SelectionHasItsControls(nav: seq<NavItem>, locationHash: string)
    requires nav != []
    ensures var id := HashRouting.Resolve(locationHash, Ids(nav));
      exists i :: 0 <= i < |nav| && nav[i].id == id && ActiveControls(nav, id) == nav[i].controls
  {
    var id := HashRouting.Resolve(locationHash, Ids(nav));
    var ids := Ids(nav);
    assert id in ids;
    var j :| 0 <= j < |ids| && ids[j] == id;
    assert nav[j].id == id;
  }
}
