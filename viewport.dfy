/** Bounding rectangles of page sections, as `getBoundingClientRect` reports
    them relative to the viewport, and the "first section spanning a
    horizontal line" rule that both scroll handlers apply. */
module Viewport {
  import opened Common

  /** Only the vertical extent of a section's rectangle matters here. */
  datatype Rect = Rect(top: real, bottom: real)

  /** The section's rectangle reaches the horizontal line `line` (both ends inclusive). */
  predicate Spans(r: Rect, line: real) {
    r.top <= line && r.bottom >= line
  }

  /** Section `ids[k]` is mounted (it is in `dom`) and its rectangle spans `line`. */
  predicate Hit(ids: seq<string>, dom: map<string, Rect>, line: real, k: int)
    requires 0 <= k < |ids|
  {
    ids[k] in dom && Spans(dom[ids[k]], line)
  }

  /** The index of the first section, in declared order and from `from` on,
      that is mounted and spans `line`; `None` when there is none. */
  function FirstSpanningFrom(ids: seq<string>, dom: map<string, Rect>, line: real, from: nat): (r: Option<nat>)
    requires from <= |ids|
    ensures r.Some? ==> from <= r.value < |ids| && Hit(ids, dom, line, r.value)
    ensures r.Some? ==> forall k :: from <= k < r.value ==> !Hit(ids, dom, line, k)
    ensures r.None? ==> forall k :: from <= k < |ids| ==> !Hit(ids, dom, line, k)
    decreases |ids| - from
  {
    if from == |ids| then None
    else if ids[from] in dom && Spans(dom[ids[from]], line) then Some(from)
    else FirstSpanningFrom(ids, dom, line, from + 1)
  }

  /** The index of the first mounted section in `ids` whose rectangle spans `line`. */
  function FirstSpanning(ids: seq<string>, dom: map<string, Rect>, line: real): (r: Option<nat>)
    ensures r.Some? ==> r.value < |ids| && Hit(ids, dom, line, r.value)
    ensures r.Some? ==> forall k :: 0 <= k < r.value ==> !Hit(ids, dom, line, k)
    ensures r.None? ==> forall k :: 0 <= k < |ids| ==> !Hit(ids, dom, line, k)
  {
    FirstSpanningFrom(ids, dom, line, 0)
  }

  /** The first-match rule is determined by the hits: whatever scan finds the
      first hit at `k` agrees with `FirstSpanning`, and a scan that finds none
      agrees with `None`. */
  lemma FirstSpanningUnique(ids: seq<string>, dom: map<string, Rect>, line: real, k: int)
    requires 0 <= k < |ids| && Hit(ids, dom, line, k)
    requires forall j :: 0 <= j < k ==> !Hit(ids, dom, line, j)
    ensures FirstSpanning(ids, dom, line) == Some(k)
  {
  }
}
