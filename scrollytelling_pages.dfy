/**
 * The section switch shared in shape by the best-practice page and the
 * examples page: two nav ids, one flag per section, and a fallback message
 * when neither section is selected.
 */
module SectionSelection {
  import opened Optional
  import HashRouting

  const StickySideId := "sticky-side"
  const HighlightStepId := "highlight-step"

  /** The two section flags and whether the media-side control is shown. */
  datatype Flags = Flags(isStickySide: bool, isHighlightStep: bool, hasMediaSideControl: bool)

  /**
   * The flags of the selected id: a section's flag is set when the nav entry found
   * for the selection has that section's id. The flags never hold together, and
   * the control is shown exactly when one of them holds.
   */
  function SectionFlags(nav: seq<string>, activeId: string): (f: Flags)
    ensures f.isStickySide <==> activeId == StickySideId && StickySideId in nav
    ensures f.isHighlightStep <==> activeId == HighlightStepId && HighlightStepId in nav
    ensures !(f.isStickySide && f.isHighlightStep)
    ensures f.hasMediaSideControl <==> f.isStickySide || f.isHighlightStep
  {
    var active := HashRouting.Find(nav, activeId);
    var isStickySide := active == Some(StickySideId);
    var isHighlightStep := active == Some(HighlightStepId);
    Flags(isStickySide, isHighlightStep, isStickySide || isHighlightStep)
  }

  /** One of the three conditional blocks of the page body. */
  datatype Section = StickySideSection | HighlightStepSection | Fallback(message: string)

  /**
   * The blocks the page body renders, in order: exactly one of them, the sticky
   * side section, the highlight step section or the fallback message.
   */
  function RenderedSections(f: Flags, fallbackMessage: string): (s: seq<Section>)
    requires !(f.isStickySide && f.isHighlightStep)
    ensures |s| == 1
    ensures s[0] == StickySideSection <==> f.isStickySide
    ensures s[0] == HighlightStepSection <==> f.isHighlightStep
    ensures s[0].Fallback? <==> !f.isStickySide && !f.isHighlightStep
    ensures s[0].Fallback? ==> s[0].message == fallbackMessage
  {
    (if f.isStickySide then [StickySideSection] else []) +
    (if f.isHighlightStep then [HighlightStepSection] else []) +
    (if !f.isStickySide && !f.isHighlightStep then [Fallback(fallbackMessage)] else [])
  }

  /**
   * When the nav holds exactly the two section ids, whatever id the hash resolves
   * to selects a section, so the fallback message is never shown.
   */
  lemma ResolvedIdNeverFallsBack(nav: seq<string>, locationHash: string, fallbackMessage: string)
    requires nav == [StickySideId, HighlightStepId]
    ensures var f := SectionFlags(nav, HashRouting.Resolve(locationHash, nav));
      f.hasMediaSideControl && !RenderedSections(f, fallbackMessage)[0].Fallback?
  {
    var id := HashRouting.Resolve(locationHash, nav);
    assert id == nav[0] || id == nav[1];
  }
}

/** `BestPracticePage`: the best-practice scrollytelling sections behind hash routing. */
module BestPracticePage {
  import opened Optional
  import HashRouting
  import SectionSelection

  const Nav: seq<string> := [SectionSelection.StickySideId, SectionSelection.HighlightStepId]
  const FallbackMessage := "Select a component from the sidebar."

  /**
   * The body rendered for a location hash: an unknown hash falls back to the
   * sticky side section, a known one selects its own section, and in no case the
   * fallback message appears.
   */
  function SectionsForHash(locationHash: string): (s: seq<SectionSelection.Section>)
    ensures |s| == 1
    ensures HashRouting.StripHash(locationHash) == SectionSelection.HighlightStepId ==> s == [SectionSelection.HighlightStepSection]
    ensures HashRouting.StripHash(locationHash) != SectionSelection.HighlightStepId ==> s == [SectionSelection.StickySideSection]
  {
    var f := SectionSelection.SectionFlags(Nav, HashRouting.Resolve(locationHash, Nav));
    SectionSelection.RenderedSections(f, FallbackMessage)
  }

  /** The fallback message only shows for a selection outside the nav, such as the empty id. */
  lemma FallbackOnlyOutsideNav(activeId: string)
    ensures var s := SectionSelection.RenderedSections(SectionSelection.SectionFlags(Nav, activeId), FallbackMessage);
      s[0].Fallback? <==> activeId !in Nav
  {
  }
}

/** `ExamplesPage`: the example scrollytelling sections behind the same hash routing. */
module ExamplesPage {
  import opened Optional
  import HashRouting
  import SectionSelection

  const Nav: seq<string> := [SectionSelection.StickySideId, SectionSelection.HighlightStepId]
  const FallbackMessage := "Select an example from the sidebar."

  /**
   * The body rendered for a location hash: an unknown hash falls back to the
   * first nav id, the sticky side section, a known one selects its own section.
   */
  function SectionsForHash(locationHash: string): (s: seq<SectionSelection.Section>)
    ensures |s| == 1
    ensures HashRouting.StripHash(locationHash) == SectionSelection.HighlightStepId ==> s == [SectionSelection.HighlightStepSection]
    ensures HashRouting.StripHash(locationHash) != SectionSelection.HighlightStepId ==> s == [SectionSelection.StickySideSection]
  {
    var f := SectionSelection.SectionFlags(Nav, HashRouting.Resolve(locationHash, Nav));
    SectionSelection.RenderedSections(f, FallbackMessage)
  }

  /** The fallback message only shows for a selection outside the nav, such as the empty id. */
  lemma FallbackOnlyOutsideNav(activeId: string)
    ensures var s := SectionSelection.RenderedSections(SectionSelection.SectionFlags(Nav, activeId), FallbackMessage);
      s[0].Fallback? <==> activeId !in Nav
  {
  }
}
