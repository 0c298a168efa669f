/** The timeline navigation of the scroll portfolio
    (src/app/components/ScrollPortfolio.tsx): a dot per brand, the active
    brand tracked on scroll, the nav shown once the page has scrolled a
    little, and the short labels of the hero's brand strip. */
module TimelineNav {
  import opened Common
  import opened Viewport

  datatype Brand = Brand(id: string, name: string)

  /** The brands in declared order (only the fields the logic reads). */
  const Brands: seq<Brand> := [
    Brand("multiverse", "Multiverse Computing"),
    Brand("belasai", "beLASAI"),
    Brand("wippass", "Wippass"),
    Brand("ehu", "EHU/UPV"),
    Brand("zrive", "Zrive")
  ]

  /** The brand ids, in declared order. */
  const BrandIds: seq<string> := MapSeq(Brands, (b: Brand) => b.id)

  /** No brand is active. */
  const NoBrand: string := ""

  lemma BrandIdsAreIds()
    ensures |BrandIds| == |Brands|
    ensures forall k :: 0 <= k < |Brands| ==> BrandIds[k] == Brands[k].id
    ensures Distinct(BrandIds) && NoBrand !in BrandIds
  {
  }

  /** The viewport's horizontal midline, `vh * 0.5`. */
  function Midline(vh: real): real {
    vh * 0.5
  }

  /** The nav fades in once the page has scrolled more than 15% of the viewport height. */
  function NavVisible(vh: real, scrollY: real): (r: bool)
    ensures r <==> scrollY > vh * 0.15
  {
    scrollY > vh * 0.15
  }

  /** The active brand after one scroll event: the first brand whose section
      spans the viewport's midline; failing that, none when the page is within
      its first viewport height, and otherwise the previous value. */
  function NextActive(prev: string, vh: real, scrollY: real, dom: map<string, Rect>): string {
    match FirstSpanning(BrandIds, dom, Midline(vh))
    case Some(k) => BrandIds[k]
    case None => if scrollY <= vh then NoBrand else prev
  }

  /** The first brand spanning the midline becomes active, skipping missing sections. */
  lemma NextActiveIsFirstSpanning(prev: string, vh: real, scrollY: real, dom: map<string, Rect>, k: int)
    requires 0 <= k < |BrandIds| && Hit(BrandIds, dom, Midline(vh), k)
    requires forall j :: 0 <= j < k ==> !Hit(BrandIds, dom, Midline(vh), j)
    ensures NextActive(prev, vh, scrollY, dom) == BrandIds[k]
  {
    FirstSpanningUnique(BrandIds, dom, Midline(vh), k);
  }

  /** With no brand spanning the midline the nav resets only near the top of the page. */
  lemma NoMatchResetsOnlyNearTop(prev: string, vh: real, scrollY: real, dom: map<string, Rect>)
    requires forall k :: 0 <= k < |BrandIds| ==> !Hit(BrandIds, dom, Midline(vh), k)
    ensures NextActive(prev, vh, scrollY, dom) == if scrollY <= vh then NoBrand else prev
  {
  }

  /** Once visible, the nav stays visible while the page scrolls further down. */
  lemma NavVisibleMonotone(vh: real, y1: real, y2: real)
    requires y1 <= y2 && NavVisible(vh, y1)
    ensures NavVisible(vh, y2)
  {
  }

  /** The nav is hidden only within the first viewport height, where a scroll
      event with no brand at the midline clears the active brand: a hidden nav
      never keeps a stale highlight. */
  lemma HiddenNavShowsNoBrand(prev: string, vh: real, scrollY: real, dom: map<string, Rect>)
    requires vh >= 0.0 && !NavVisible(vh, scrollY)
    requires FirstSpanning(BrandIds, dom, Midline(vh)).None?
    ensures NextActive(prev, vh, scrollY, dom) == NoBrand
  {
    assert scrollY <= vh * 0.15 <= vh;
  }

  /** After a scroll event the nav uses its light-background colours exactly
      when the EHU section is the first to span the midline, or when no brand
      spans it, the page is past its first viewport height and EHU was active. */
  lemma LightBackgroundAfterScroll(prev: string, vh: real, scrollY: real, dom: map<string, Rect>)
    ensures OnLightBackground(NextActive(prev, vh, scrollY, dom)) <==>
      FirstSpanning(BrandIds, dom, Midline(vh)) == Some(3) ||
      (FirstSpanning(BrandIds, dom, Midline(vh)).None? && scrollY > vh && prev == "ehu")
  {
    BrandIdsAreIds();
  }

  /** The active value is always none or one of the brand ids. */
  predicate IsActiveValue(s: string) {
    s == NoBrand || s in BrandIds
  }

  lemma NextActiveIsActiveValue(prev: string, vh: real, scrollY: real, dom: map<string, Rect>)
    requires IsActiveValue(prev)
    ensures IsActiveValue(NextActive(prev, vh, scrollY, dom))
  {
  }

  /** A dot is drawn 9px wide when its brand is active and 5px otherwise. */
  function DotSize(active: string, brandId: string): (r: nat)
    ensures r == 9 <==> active == brandId
    ensures r == 5 <==> active != brandId
  {
    if active == brandId then 9 else 5
  }

  /** The dots drawn large. */
  function LargeDots(active: string): set<int> {
    set k | 0 <= k < |Brands| && DotSize(active, Brands[k].id) == 9
  }

  /** At most one dot is large: exactly one when a brand is active, none otherwise. */
  lemma AtMostOneLargeDot(active: string)
    ensures |LargeDots(active)| == if active in BrandIds then 1 else 0
  {
    BrandIdsAreIds();
    assert LargeDots(active) == Positions(BrandIds, active);
    DistinctPositions(BrandIds, active);
  }

  /** The nav switches to its light-background colours on the EHU section only. */
  function OnLightBackground(active: string): (r: bool)
    ensures r <==> active == "ehu"
  {
    active == "ehu"
  }

  /** The short label under each logo of the hero's brand strip: fixed for EHU
      and beLASAI, otherwise the first word of the brand's name. */
  function BrandLabel(b: Brand): (r: string)
    ensures b.id != "ehu" && b.id != "belasai" ==> r == SplitFirst(b.name, ' ')
    ensures b.id == "ehu" ==> r == "EHU"
    ensures b.id == "belasai" ==> r == "beLAS"
  {
    if b.id == "ehu" then "EHU"
    else if b.id == "belasai" then "beLAS"
    else SplitFirst(b.name, ' ')
  }

  /** A first-word label is a leading part of the name without spaces. */
  lemma BrandLabelIsFirstWord(b: Brand)
    requires b.id != "ehu" && b.id != "belasai"
    ensures BrandLabel(b) == b.name[..|BrandLabel(b)|] && ' ' !in BrandLabel(b)
    ensures |BrandLabel(b)| == |b.name| || b.name[|BrandLabel(b)|] == ' '
  {
  }

  /** The labels of the brand strip that are first words of the brand's name. */
  lemma MultiverseLabel()
    ensures BrandLabel(Brands[0]) == "Multiverse"
  {
    assert Brands[0].name == "Multiverse" + " Computing";
    SplitFirstAt("Multiverse", " Computing", ' ');
  }

  lemma WippassLabel()
    ensures BrandLabel(Brands[2]) == "Wippass"
  {
    assert Brands[2].name == "Wippass" + "";
    SplitFirstAt("Wippass", "", ' ');
  }

  lemma ZriveLabel()
    ensures BrandLabel(Brands[4]) == "Zrive"
  {
    assert Brands[4].name == "Zrive" + "";
    SplitFirstAt("Zrive", "", ' ');
  }

  /** The state of `TimelineNav`: the active brand and whether the nav is shown. */
  class Nav {
    var activeSection: string
    var visible: bool

    ghost predicate Valid()
      reads this
    {
      IsActiveValue(activeSection)
    }

    /** Mounting starts from `useState('')` and `useState(false)` and then runs
        the scroll handler once. */
    constructor Mount(vh: real, scrollY: real, dom: map<string, Rect>)
      ensures Valid()
      ensures visible == NavVisible(vh, scrollY)
      ensures activeSection == NextActive(NoBrand, vh, scrollY, dom)
    {
      activeSection := NoBrand;
      visible := false;
      new;
      HandleScroll(vh, scrollY, dom);
    }

    /** `handleScroll`: update visibility, then scan the brands in order for
        the first whose section spans the viewport's midline. */
    method HandleScroll(vh: real, scrollY: real, dom: map<string, Rect>)
      requires Valid()
      modifies this
      ensures Valid()
      ensures visible == NavVisible(vh, scrollY)
      ensures activeSection == NextActive(old(activeSection), vh, scrollY, dom)
    {
      visible := scrollY > vh * 0.15;
      var found := false;
      for i := 0 to |Brands|
        invariant !found && activeSection == old(activeSection)
        invariant visible == NavVisible(vh, scrollY)
        invariant forall k :: 0 <= k < i ==> !Hit(BrandIds, dom, Midline(vh), k)
      {
        BrandIdsAreIds();
        var id := Brands[i].id;
        if id !in dom {
          continue;
        }
        var rect := dom[id];
        if rect.top <= Midline(vh) && rect.bottom >= Midline(vh) {
          FirstSpanningUnique(BrandIds, dom, Midline(vh), i);
          activeSection := id;
          found := true;
          break;
        }
      }
      if !found && scrollY <= vh {
        activeSection := NoBrand;
      }
    }
  }
}
