/** The Zrive course section (src/app/components/ZriveProjectSection.tsx): a
    row of pills, "overview" first and then one per course module, selects
    which single panel is shown; each module panel carries a status badge and,
    for the one module that has it, a workshop photo. */
module ZriveProjectSection {
  import opened Common

  /** A course module, with only the fields the section's logic reads. */
  datatype Module = Module(id: string, title: string, status: string, workshopImage: Option<string>)

  const Modules: seq<Module> := [
    Module("module1", "Module 1: Applied Data Science Intro", "completed", None),
    Module("module2", "Module 2: Exploratory Data Analysis", "completed", None),
    Module("module3", "Module 3: Statistical Learning Fundamentals", "completed", None),
    Module("module4", "Module 4: Advanced Statistical Learning", "completed", None),
    Module("module5", "Module 5: Model Analysis & Improvement", "completed", None),
    Module("module6", "Module 6: Business Translation", "completed", Some("/presencial_talk.jpg")),
    Module("module7", "Module 7: System Design", "completed", None)
  ]

  /** The module ids, in declared order. */
  const ModuleIds: seq<string> := MapSeq(Modules, (m: Module) => m.id)

  /** The pill and panel key of the programme overview; also the initial selection. */
  const Overview: string := "overview"

  /** The keys of the pills in the order they are drawn: overview, then the modules. */
  const PillKeys: seq<string> := [Overview] + ModuleIds

  lemma ModuleIdsAreIds()
    ensures |ModuleIds| == |Modules|
    ensures forall k :: 0 <= k < |Modules| ==> ModuleIds[k] == Modules[k].id
    ensures Distinct(ModuleIds) && Overview !in ModuleIds
    ensures Distinct(PillKeys)
  {
  }

  // ------------------------------------------------------------ status badge

  datatype Badge = Completed | InProgress | Upcoming

  /** `getStatusBadge`: "completed" and "in-progress" have their own badge;
      any other status reads as upcoming. */
  function StatusBadge(status: string): (b: Badge)
    ensures b == Completed <==> status == "completed"
    ensures b == InProgress <==> status == "in-progress"
    ensures b == Upcoming <==> status != "completed" && status != "in-progress"
  {
    if status == "completed" then Completed
    else if status == "in-progress" then InProgress
    else Upcoming
  }

  /** Every module of the course shows the completed badge. */
  lemma AllModulesCompleted()
    ensures forall k :: 0 <= k < |Modules| ==> StatusBadge(Modules[k].status) == Completed
  {
  }

  // ------------------------------------------------------------------ pills

  /** A module pill's text after the icon: the title up to its first colon. */
  function PillLabel(m: Module): (r: string)
    ensures |r| <= |m.title| && r == m.title[..|r|] && ':' !in r
    ensures |r| == |m.title| || m.title[|r|] == ':'
  {
    SplitFirst(m.title, ':')
  }

  /** A title "Module n: ..." has the pill label "Module n". */
  lemma LabelBeforeColon(title: string)
    requires |title| > 8 && title[8] == ':'
    requires forall i :: 0 <= i < 8 ==> title[i] != ':'
    ensures SplitFirst(title, ':') == title[..8]
  {
    assert title == title[..8] + title[8..];
    SplitFirstAt(title[..8], title[8..], ':');
  }

  /** Every module title has the form "Module n: ...", so each pill reads
      the eight characters "Module n". */
  lemma PillLabelsAreModuleNumbers()
    ensures forall k :: 0 <= k < |Modules| ==> PillLabel(Modules[k]) == Modules[k].title[..8]
  {
    forall k | 0 <= k < |Modules|
      ensures PillLabel(Modules[k]) == Modules[k].title[..8]
    {
      LabelBeforeColon(Modules[k].title);
    }
  }

  /** The pills highlighted for the selected key. */
  function HighlightedPills(active: string): set<int> {
    Positions(PillKeys, active)
  }

  /** The selection starts at "overview" and a click sets it to a pill's key. */
  predicate IsSelection(active: string) {
    active in PillKeys
  }

  /** Clicking pill `k` selects its key. */
  function Click(k: nat): (active: string)
    requires k < |PillKeys|
    ensures IsSelection(active)
    ensures k in HighlightedPills(active)
  {
    PillKeys[k]
  }

  /** Exactly one pill is highlighted for any selection. */
  lemma ExactlyOnePillHighlighted(active: string)
    requires IsSelection(active)
    ensures |HighlightedPills(active)| == 1
  {
    ModuleIdsAreIds();
    DistinctPositions(PillKeys, active);
  }

  // ----------------------------------------------------------------- panels

  /** The overview panel is shown iff the selection is "overview". */
  predicate ShowsOverview(active: string) {
    active == Overview
  }

  /** The module panels shown: the positions of the modules whose id is the selection. */
  function ShownModulePanels(active: string): set<int> {
    Positions(ModuleIds, active)
  }

  /** The number of panels shown for a selection. */
  function PanelCount(active: string): nat {
    (if ShowsOverview(active) then 1 else 0) + |ShownModulePanels(active)|
  }

  /** Exactly one panel is shown for a selection made through the pills, and
      none for any other key; a shown module panel is the selected module's. */
  lemma OnePanelShown(active: string)
    ensures PanelCount(active) == if IsSelection(active) then 1 else 0
    ensures forall k :: k in ShownModulePanels(active) ==> Modules[k].id == active
  {
    ModuleIdsAreIds();
    DistinctPositions(ModuleIds, active);
  }

  // ---------------------------------------------------------- workshop photo

  /** A module panel shows its workshop photo iff it has a (truthy) one. */
  predicate ShowsWorkshopImage(m: Module) {
    Truthy(m.workshopImage)
  }

  /** Only the Business Translation module (module 6) has a workshop photo. */
  lemma OnlyModuleSixHasWorkshopImage()
    ensures forall k :: 0 <= k < |Modules| ==> (ShowsWorkshopImage(Modules[k]) <==> Modules[k].id == "module6")
  {
  }
}
