/**
 * The hash-based selection shared by the component gallery and the two
 * scrollytelling pages: the selected id is read from the location hash,
 * re-read on every `hashchange` and written back whenever it changes.
 */
module HashRouting {
  import opened Optional

  /** `hash.replace(/^#/, '')`: at most one leading '#' is removed. */
  function StripHash(hash: string): (id: string)
    ensures |hash| > 0 && hash[0] == '#' ==> hash == "#" + id
    ensures !(|hash| > 0 && hash[0] == '#') ==> id == hash
  {
    if |hash| > 0 && hash[0] == '#' then hash[1..] else hash
  }

  /** Only the first '#' goes: "##a" strips to "#a". */
  lemma StripHashRemovesOnlyOne(id: string)
    ensures StripHash("##" + id) == "#" + id
    ensures StripHash("#" + id) == id
  {
    assert ("##" + id)[1..] == "#" + id;
    assert ("#" + id)[1..] == id;
  }

  /** `nav.find((item) => item.id === id)?.id`. */
  function Find(nav: seq<string>, id: string): (r: Option<string>)
    ensures r.Some? <==> id in nav
    ensures r.Some? ==> r.value == id
  {
    if nav == [] then None
    else if nav[0] == id then Some(nav[0])
    else Find(nav[1..], id)
  }

  /** `nav[0]?.id ?? ''`. */
  function FirstOrEmpty(nav: seq<string>): string {
    if nav == [] then "" else nav[0]
  }

  /**
   * The id a location hash selects: the stripped hash when some nav id equals it,
   * otherwise the first nav id, or the empty id when there are no nav items.
   */
  function Resolve(locationHash: string, nav: seq<string>): (id: string)
    ensures StripHash(locationHash) in nav ==> id == StripHash(locationHash)
    ensures StripHash(locationHash) !in nav && nav != [] ==> id == nav[0]
    ensures nav == [] ==> id == ""
    ensures nav != [] ==> id in nav
  {
    Find(nav, StripHash(locationHash)).GetOr(FirstOrEmpty(nav))
  }

  /**
   * The initial selection; `None` stands for rendering without a window, which
   * takes the first nav id (or the empty id).
   */
  function InitialId(locationHash: Option<string>, nav: seq<string>): (id: string)
    ensures locationHash.Some? ==> id == Resolve(locationHash.value, nav)
    ensures locationHash.None? ==> id == FirstOrEmpty(nav)
    ensures nav != [] ==> id in nav
  {
    if locationHash.None? then FirstOrEmpty(nav) else Resolve(locationHash.value, nav)
  }

  /** The value `location.hash` reads after `location.hash = id`. */
  function HashAfterAssign(id: string): (hash: string)
    ensures |hash| == |id| + 1 && hash[0] == '#'
    ensures StripHash(hash) == id
  {
    "#" + id
  }

  /** Resolving a hash written from a nav id selects that id again. */
  lemma ResolveWrittenHash(id: string, nav: seq<string>)
    requires id in nav
    ensures Resolve(HashAfterAssign(id), nav) == id
  {
    assert ("#" + id)[1..] == id;
  }

  /** The functional update handed to the state setter by the `hashchange` handler. */
  datatype IdUpdate = KeepCurrent | SetTo(id: string)

  function ApplyUpdate(current: string, u: IdUpdate): string {
    if u.KeepCurrent? then current else u.id
  }

  /**
   * `handleHashChange`'s updater: the current value is kept exactly when it already
   * is the resolved id, and the state afterwards is always the resolved id.
   */
  function HashChangeUpdate(current: string, locationHash: string, nav: seq<string>): (u: IdUpdate)
    ensures u.KeepCurrent? <==> current == Resolve(locationHash, nav)
    ensures ApplyUpdate(current, u) == Resolve(locationHash, nav)
  {
    var nextId := Resolve(locationHash, nav);
    if current == nextId then KeepCurrent else SetTo(nextId)
  }

  /**
   * The write-back effect: the hash is assigned, with the selected id, only when
   * an id is selected and the hash does not already name it.
   */
  function WriteBack(activeId: string, locationHash: string): (assign: Option<string>)
    ensures assign.Some? <==> activeId != "" && locationHash != HashAfterAssign(activeId)
    ensures assign.Some? ==> assign.value == activeId
  {
    if activeId == "" then None
    else if locationHash != "#" + activeId then Some(activeId)
    else None
  }

  /**
   * Writing back the selected id and then handling the resulting `hashchange`
   * keeps the selection; and once the hash names the selection, the write-back
   * assigns nothing more.
   */
  lemma WriteBackThenHashChangeKeeps(activeId: string, locationHash: string, nav: seq<string>)
    requires activeId in nav
    ensures var a := WriteBack(activeId, locationHash);
      a.Some? ==> HashChangeUpdate(activeId, HashAfterAssign(a.value), nav) == KeepCurrent &&
                  WriteBack(activeId, HashAfterAssign(a.value)) == None
  {
    ResolveWrittenHash(activeId, nav);
  }

  /**
   * The selected id of one page together with its nav ids. The selection is
   * always a nav id, or empty when there are none.
   */
  class HashSelection {
    const nav: seq<string>
    var activeId: string

    ghost predicate Valid()
      reads this
    {
      if nav == [] then activeId == "" else activeId in nav
    }

    /** The lazy initial state. */
    constructor (nav: seq<string>, locationHash: Option<string>)
      ensures this.nav == nav
      ensures activeId == InitialId(locationHash, nav)
      ensures Valid()
    {
      this.nav := nav;
      activeId := InitialId(locationHash, nav);
    }

    /** A `hashchange` event with the location's new hash. */
    method OnHashChange(locationHash: string)
      requires Valid()
      modifies this
      ensures activeId == ApplyUpdate(old(activeId), HashChangeUpdate(old(activeId), locationHash, nav))
      ensures activeId == Resolve(locationHash, nav)
      ensures Valid()
    {
      activeId := ApplyUpdate(activeId, HashChangeUpdate(activeId, locationHash, nav));
    }

    /** A click on a nav button. */
    method Select(id: string)
      requires Valid() && id in nav
      modifies this
      ensures activeId == id
      ensures Valid()
    {
      activeId := id;
    }

    /** The assignment the write-back effect makes to `location.hash`, if any. */
    method HashToWrite(locationHash: string) returns (assign: Option<string>)
      requires Valid()
      ensures assign.Some? <==> activeId != "" && locationHash != HashAfterAssign(activeId)
      ensures assign.Some? ==> assign.value == activeId && Resolve(HashAfterAssign(assign.value), nav) == activeId
    {
      assign := WriteBack(activeId, locationHash);
      if assign.Some? {
        ResolveWrittenHash(activeId, nav);
      }
    }
  }
}
