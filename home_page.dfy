/** The active-section tracker of the home page (src/app/page.tsx): on every
    scroll event the first section, in declared order, whose rectangle spans
    the line 100px below the top of the viewport becomes active; when no
    section spans it the active section is left as it was. */
module HomePage {
  import opened Common
  import opened Viewport

  /** The sections examined, in this order. */
  const SectionIds: seq<string> := ["hero", "about", "skills", "projects", "experience", "contact"]

  /** The horizontal line, in CSS pixels from the top of the viewport, a section must span. */
  const ActivationLine: real := 100.0

  /** The active section after one scroll event, given the previous one and
      the rectangles of the sections that are mounted. */
  function NextSection(prev: string, dom: map<string, Rect>): string {
    match FirstSpanning(SectionIds, dom, ActivationLine)
    case Some(k) => SectionIds[k]
    case None => prev
  }

  lemma SectionIdsDistinct()
    ensures Distinct(SectionIds)
  {
  }

  /** The section that spans the line and comes first in declared order is
      selected: an earlier section wins over a later one that also spans it. */
  lemma SelectsFirstSpanning(prev: string, dom: map<string, Rect>, k: int)
    requires 0 <= k < |SectionIds| && Hit(SectionIds, dom, ActivationLine, k)
    requires forall j :: 0 <= j < k ==> !Hit(SectionIds, dom, ActivationLine, j)
    ensures NextSection(prev, dom) == SectionIds[k]
  {
    FirstSpanningUnique(SectionIds, dom, ActivationLine, k);
  }

  /** A later section never wins over an earlier one that also spans the line. */
  lemma EarlierSectionWins(prev: string, dom: map<string, Rect>, i: int, j: int)
    requires 0 <= i < j < |SectionIds|
    requires Hit(SectionIds, dom, ActivationLine, i) && Hit(SectionIds, dom, ActivationLine, j)
    ensures NextSection(prev, dom) != SectionIds[j]
  {
    SectionIdsDistinct();
  }

  /** With no section spanning the line there is no reset: the previous value stays. */
  lemma NoMatchKeepsPrevious(prev: string, dom: map<string, Rect>)
    requires forall k :: 0 <= k < |SectionIds| ==> !Hit(SectionIds, dom, ActivationLine, k)
    ensures NextSection(prev, dom) == prev
  {
  }

  /** A section whose element is missing is skipped: the scroll event can only
      change the active section to a mounted section that spans the line. */
  lemma ChangesOnlyToMountedSpanning(prev: string, dom: map<string, Rect>)
    ensures NextSection(prev, dom) != prev ==>
      NextSection(prev, dom) in SectionIds && NextSection(prev, dom) in dom &&
      Spans(dom[NextSection(prev, dom)], ActivationLine)
  {
  }

  /** The active section is always one of the six listed ids. */
  predicate IsSection(s: string) {
    s in SectionIds
  }

  lemma NextSectionIsSection(prev: string, dom: map<string, Rect>)
    requires IsSection(prev)
    ensures IsSection(NextSection(prev, dom))
  {
  }

  /** The state of the `Home` component: its `activeSection`. */
  class Home {
    var activeSection: string

    ghost predicate Valid()
      reads this
    {
      IsSection(activeSection)
    }

    /** `useState('hero')`; the scroll handler is only registered, not run, on mount. */
    constructor ()
      ensures Valid() && activeSection == "hero"
    {
      activeSection := "hero";
    }

    /** `handleScroll`: scan the sections in order, skipping those whose
        element is missing, and stop at the first that spans the line. */
    method HandleScroll(dom: map<string, Rect>)
      requires Valid()
      modifies this
      ensures Valid()
      ensures activeSection == NextSection(old(activeSection), dom)
    {
      for i := 0 to |SectionIds|
        invariant forall k :: 0 <= k < i ==> !Hit(SectionIds, dom, ActivationLine, k)
        invariant activeSection == old(activeSection)
      {
        var section := SectionIds[i];
        if section !in dom {
          continue;
        }
        var rect := dom[section];
        if rect.top <= ActivationLine && rect.bottom >= ActivationLine {
          FirstSpanningUnique(SectionIds, dom, ActivationLine, i);
          activeSection := section;
          break;
        }
      }
    }
  }
}
