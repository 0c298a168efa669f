# Portfolio site: a verified model of its interactive logic

This project models in Dafny the parts of a personal portfolio site (Next.js, React) that make decisions: the
parts that compute rather than only lay out markup. It covers:

- **Particle field** behind the scroll portfolio's hero (`ParticleField` in `ScrollPortfolio.tsx`).
  The model covers the particle count taken from the viewport area and the random initial attributes. It
  also covers the per-frame update done in place: move, wrap with a 10px margin, mouse push, damping. Last
  comes the pass that joins every close pair with a faint line.
- **Active-section tracking**, in two variants:
  - The timeline nav (`TimelineNav`) takes the first brand section that spans the viewport's midline. With
    no match it resets only near the top of the page. It is visible once the page has scrolled strictly more than
    15% of the viewport height.
  - The home page (`Home`) takes the first section that spans the line 100px below the top of the
    viewport. With no match it keeps the previous value.
- **Project list shaping** (`ProjectsSection`): the category filter and the split into the featured block
  and the grid. Grid cards cut descriptions at 140 characters and show the first three technologies plus a
  "+n" badge. Each card's link buttons appear in a fixed order.
- **Course module selector** (`ZriveProjectSection`): the status badge and the pill labels. Exactly one
  pill is highlighted and exactly one panel is shown.

Modules:

- `Common`: `Option` and JavaScript truthiness. It also holds `Keep` (`Array.prototype.filter`),
  `SplitFirst` (`s.split(sep)[0]`) and `Positions` (the highlighted buttons of a row).
- `Viewport`: the section rectangles from `getBoundingClientRect` and the rule "first section, in declared
  order, that is mounted and spans a horizontal line".
- `ParticleField`: particle arithmetic as functions and lemmas. The class `Field` holds the component's
  mutable state: the size, the mouse and an `array` of particles updated in place.
- `TimelineNav`, with the class `Nav`; `HomePage`, with the class `Home`.
- `ProjectsSection` and `ZriveProjectSection`: pure functions over the constant data.

Both scroll handlers are `for` loops with `continue` and `break`. They are proved equal to a specification
function (`NextActive`, `NextSection`) built on `Viewport.FirstSpanning`. The particle frame and the
connection pass are loops over the particle array. They are proved equal to `StepParticle` applied to each
particle and to the ordered list `AllLines` of all close pairs.

Square roots are not computed. Every distance the source obtains with `Math.sqrt` is an input `d` with
`d >= 0` and `d * d == dx * dx + dy * dy` (`ParticleField.IsDistance`). The DOM is a map from element id to
rectangle, and an id that is not in the map is an element that is not mounted. `Math.random()` draws,
`window.innerWidth`/`innerHeight`, `scrollY` and mouse coordinates are parameters. The translation
function `t` is a parameter of the project catalogue.

Three facts about the code shape the model:

- The active-section rules test whether a section's rectangle spans a line: the viewport's midline, or the
  100px line on the home page. They do not compare midpoints.
- Resize only records the new size. The particles are created once, at mount.
- The frame update has no time step. Every frame moves each particle by its velocity.

## Model

| member | source | states |
|---|---|---|
| Common.Keep | src/app/components/ProjectsSection.tsx:205-207 | `filter` keeps exactly the elements that satisfy the predicate, and never more than the input has |
| Common.KeepConcat | src/app/components/ProjectsSection.tsx:205-207 | filtering distributes over concatenation, so it keeps the original order |
| Common.KeepPartition | src/app/components/ProjectsSection.tsx:252-253 | filtering by a predicate and by its negation puts every element in exactly one of the two results, as often as in the input |
| Common.SplitFirst | src/app/components/ZriveProjectSection.tsx:286 | `split(sep)[0]` is the longest prefix without the separator; it ends at the first separator or at the end of the string |
| Common.SplitFirstAt | src/app/components/ScrollPortfolio.tsx:366 | splitting `a + b`, where `a` has no separator and `b` is empty or starts with one, gives back exactly `a` |
| Common.Positions | src/app/components/ProjectsSection.tsx:233 | the highlighted positions of a row are exactly those whose key equals the current value |
| Common.DistinctPositions | src/app/components/ZriveProjectSection.tsx:268-280 | with distinct keys, one position is highlighted when the value is a key and none otherwise |
| Viewport.FirstSpanningFrom | src/app/page.tsx:23-33 | the scan from position `from` finds the first mounted section that spans the line, and finds nothing only when no later section does |
| Viewport.FirstSpanning | src/app/components/ScrollPortfolio.tsx:575-584 | the first mounted section, in declared order, whose rectangle has top <= line <= bottom; `None` iff no section does |
| Viewport.FirstSpanningUnique | src/app/page.tsx:23-33 | a hit at `k` with no hit before it means the rule selects `k` |
| HomePage.NextSection | src/app/page.tsx:22-33 | definition of the active section after a scroll event; its properties are in `SelectsFirstSpanning`, `EarlierSectionWins`, `NoMatchKeepsPrevious`, `ChangesOnlyToMountedSpanning`, `NextSectionIsSection` and `Home.HandleScroll` |
| HomePage.SectionIdsDistinct | src/app/page.tsx:20 | the six section ids examined are distinct |
| HomePage.SelectsFirstSpanning | src/app/page.tsx:29-31 | the first section spanning y = 100 becomes active |
| HomePage.EarlierSectionWins | src/app/page.tsx:23-31 | when two sections both span the line, the later one is never selected |
| HomePage.NoMatchKeepsPrevious | src/app/page.tsx:22-33 | with no section spanning the line the active section is unchanged; there is no reset |
| HomePage.ChangesOnlyToMountedSpanning | src/app/page.tsx:24-25 | a change of active section is always to a mounted section that spans the line, so missing sections are never selected |
| HomePage.NextSectionIsSection | src/app/page.tsx:20-30 | the active section stays one of the six listed ids |
| HomePage.Home.constructor | src/app/page.tsx:16 | the active section starts as "hero" |
| HomePage.Home.HandleScroll | src/app/page.tsx:19-34 | the loop with `continue` and `break` sets the active section to `NextSection` of the old one and keeps it one of the six ids |
| TimelineNav.BrandIdsAreIds | src/app/components/ScrollPortfolio.tsx:24-91 | the brand ids, in declared order, are distinct and none is the empty "no brand" value |
| TimelineNav.NavVisible | src/app/components/ScrollPortfolio.tsx:571 | definition: the nav is visible iff scrollY > 0.15 * vh; its properties are in `NavVisibleMonotone` and `HiddenNavShowsNoBrand` |
| TimelineNav.NavVisibleMonotone | src/app/components/ScrollPortfolio.tsx:571 | once visible, the nav stays visible as the page scrolls further down |
| TimelineNav.HiddenNavShowsNoBrand | src/app/components/ScrollPortfolio.tsx:571-587 | for vh >= 0, a scroll event that leaves the nav hidden and finds no brand at the midline clears the active brand, so a hidden nav never keeps a stale highlight |
| TimelineNav.NextActive | src/app/components/ScrollPortfolio.tsx:574-587 | definition of the active brand after a scroll event; its properties are in `NextActiveIsFirstSpanning`, `NoMatchResetsOnlyNearTop`, `NextActiveIsActiveValue` and `Nav.HandleScroll` |
| TimelineNav.NextActiveIsFirstSpanning | src/app/components/ScrollPortfolio.tsx:575-583 | the first brand whose section spans vh / 2 (inclusive) becomes active; missing sections are skipped |
| TimelineNav.NoMatchResetsOnlyNearTop | src/app/components/ScrollPortfolio.tsx:585-587 | with no brand spanning the midline the active brand becomes "" if scrollY <= vh and is otherwise unchanged |
| TimelineNav.NextActiveIsActiveValue | src/app/components/ScrollPortfolio.tsx:560-586 | the active value is always "" or a brand id |
| TimelineNav.DotSize | src/app/components/ScrollPortfolio.tsx:615-631 | a dot is 9px iff its brand is active and 5px otherwise |
| TimelineNav.AtMostOneLargeDot | src/app/components/ScrollPortfolio.tsx:614-631 | exactly one dot is large when a brand is active, none otherwise |
| TimelineNav.OnLightBackground | src/app/components/ScrollPortfolio.tsx:564 | definition: light-background colours are used iff the active id is "ehu"; tied to the scroll handler by `LightBackgroundAfterScroll` |
| TimelineNav.LightBackgroundAfterScroll | src/app/components/ScrollPortfolio.tsx:564-587 | after a scroll event the light colours are on iff EHU is the first brand spanning the midline, or no brand spans it, scrollY > vh and EHU was already active |
| TimelineNav.BrandLabel | src/app/components/ScrollPortfolio.tsx:366 | "EHU" for ehu, "beLAS" for belasai, otherwise the part of the brand name before the first space |
| TimelineNav.BrandLabelIsFirstWord | src/app/components/ScrollPortfolio.tsx:366 | a first-word label is a space-free prefix of the name that ends at a space or at the end of the name |
| TimelineNav.MultiverseLabel | src/app/components/ScrollPortfolio.tsx:366 | the Multiverse Computing brand is labelled "Multiverse" |
| TimelineNav.WippassLabel | src/app/components/ScrollPortfolio.tsx:366 | the Wippass brand is labelled "Wippass" |
| TimelineNav.ZriveLabel | src/app/components/ScrollPortfolio.tsx:366 | the Zrive brand is labelled "Zrive" |
| TimelineNav.Nav.Mount | src/app/components/ScrollPortfolio.tsx:560-591 | state starts at "" and hidden, then the scroll handler runs once |
| TimelineNav.Nav.HandleScroll | src/app/components/ScrollPortfolio.tsx:567-588 | the loop with the `found` flag and `break` sets visibility to `NavVisible` and the active brand to `NextActive` of the old one |
| ParticleField.ParticleCount | src/app/components/ScrollPortfolio.tsx:130 | the count never exceeds 70, leaves each particle at least 18000 px² of area, and falls short of 70 only when one more would not fit |
| ParticleField.CountIsFloorBelowCap | src/app/components/ScrollPortfolio.tsx:130 | below 70 * 18000 px² the count is floor(w * h / 18000) |
| ParticleField.FullHdIsCapped | src/app/components/ScrollPortfolio.tsx:130 | a 1920 x 1080 viewport gets the cap of 70 |
| ParticleField.Scale | src/app/components/ScrollPortfolio.tsx:132-133 | `Math.random() * size` lies in [0, size], and below size when size > 0 |
| ParticleField.NewParticle | src/app/components/ScrollPortfolio.tsx:131-138 | x in [0, w) and y in [0, h); vx and vy in [-0.125, 0.125), radius in [0.4, 1.6), opacity in [0.08, 0.33) |
| ParticleField.Wrap | src/app/components/ScrollPortfolio.tsx:166-169 | the result lies in [-10, size + 10]; a low exit goes to size + 10, a high exit to -10, and an in-range value is unchanged |
| ParticleField.MoveWrap | src/app/components/ScrollPortfolio.tsx:162-169 | after moving and wrapping, the particle is inside the margins whatever its prior state; velocity, radius and opacity are unchanged |
| ParticleField.Force | src/app/components/ScrollPortfolio.tsx:176 | for 0 < dist < 160 the push strength lies strictly between 0 and 0.015 |
| ParticleField.ForceDecreasesWithDistance | src/app/components/ScrollPortfolio.tsx:176 | closer particles are pushed harder |
| ParticleField.Push | src/app/components/ScrollPortfolio.tsx:172-179 | the push changes only the velocity, and only when 0 < dist < 160 |
| ParticleField.PushRepels | src/app/components/ScrollPortfolio.tsx:175-179 | the push raises the velocity's component away from the mouse by exactly force * dist |
| ParticleField.PushMagnitude | src/app/components/ScrollPortfolio.tsx:177-178 | the velocity change has length exactly `Force(dist)`, because it points along the unit vector |
| ParticleField.DampScalesRadial | src/app/components/ScrollPortfolio.tsx:182-183 | damping scales the velocity's component away from the mouse by 0.998 |
| ParticleField.Damp | src/app/components/ScrollPortfolio.tsx:182-183 | damping changes only the velocity |
| ParticleField.StepParticle | src/app/components/ScrollPortfolio.tsx:161-183 | after one frame the particle is inside the margins and keeps its radius and opacity |
| ParticleField.StepRepels | src/app/components/ScrollPortfolio.tsx:171-183 | within the push radius, a frame leaves the particle moving further from the mouse than the same frame without the push |
| ParticleField.UnitDirection | src/app/components/ScrollPortfolio.tsx:177-178 | (dx / dist, dy / dist) is a unit vector whose dot product with (dx, dy) is dist |
| ParticleField.LessIffSquaresLess | src/app/components/ScrollPortfolio.tsx:197-198 | arithmetic support for `ConnectedIffSquaredDistance` and `DistanceAtLeastComponent`: for non-negative reals, comparing the values and comparing their squares agree |
| ParticleField.DistanceAtLeastComponent | src/app/components/ScrollPortfolio.tsx:174 | a distance is at least the absolute value of each coordinate difference |
| ParticleField.NoPushWithoutMouse | src/app/components/ScrollPortfolio.tsx:141-175 | while the mouse is parked at (-9999, -9999), no particle inside the margins is pushed |
| ParticleField.ConnectedIffSquaredDistance | src/app/components/ScrollPortfolio.tsx:197-198 | a pair is joined iff dx² + dy² < 140² |
| ParticleField.Alpha | src/app/components/ScrollPortfolio.tsx:199 | a line's opacity lies in (0, 0.07] for distances below 140, and equals 0.07 iff the distance is 0 |
| ParticleField.RowLines | src/app/components/ScrollPortfolio.tsx:194-207 | definition of the lines the inner loop draws for particle `i`; its properties are in `RowLinesShape` and `ConnectRow` |
| ParticleField.AllLines | src/app/components/ScrollPortfolio.tsx:193-208 | definition of the lines the whole pass draws; its properties are in `AllLinesShape`, `LineDrawnIffClose`, `EachPairAtMostOnce` and `Field.Connections` |
| ParticleField.OrderedConcat | src/app/components/ScrollPortfolio.tsx:193-194 | joining two ordered runs of lines, the first wholly before the second, keeps them ordered |
| ParticleField.RowLinesShape | src/app/components/ScrollPortfolio.tsx:194-199 | the inner loop's lines are ordered and are exactly the close pairs (i, j') for j <= j' < n, with their opacity |
| ParticleField.AllLinesShape | src/app/components/ScrollPortfolio.tsx:193-199 | the lines from row `i` on are ordered and are exactly the close pairs i <= i' < j' < n, with their opacity |
| ParticleField.LineDrawnIffClose | src/app/components/ScrollPortfolio.tsx:193-199 | a line joins (i, j) iff i < j < n and the pair is closer than 140, with opacity `Alpha(dist)` |
| ParticleField.EachPairAtMostOnce | src/app/components/ScrollPortfolio.tsx:193-194 | the lines come in nested-loop order and no pair is drawn twice |
| ParticleField.Field.Mount | src/app/components/ScrollPortfolio.tsx:116-151 | reads the viewport, creates `ParticleCount` particles from the draws with `NewParticle`, and parks the mouse at (-9999, -9999) |
| ParticleField.Field.Resize | src/app/components/ScrollPortfolio.tsx:116-125 | resizing records the new size and leaves the particles and the mouse alone |
| ParticleField.Field.MouseMove | src/app/components/ScrollPortfolio.tsx:144-147 | the mouse moves to the event's coordinates |
| ParticleField.Field.MouseLeave | src/app/components/ScrollPortfolio.tsx:148-151 | the mouse is parked at (-9999, -9999) |
| ParticleField.Field.Step | src/app/components/ScrollPortfolio.tsx:160-190 | every particle becomes `StepParticle` of its old value, in place; afterwards all lie inside the margins and keep their radius and opacity in range |
| ParticleField.ConnectRow | src/app/components/ScrollPortfolio.tsx:194-207 | the inner loop yields exactly `RowLines`: a line for each later particle closer than 140, in order |
| ParticleField.Field.Connections | src/app/components/ScrollPortfolio.tsx:193-208 | the nested loops produce exactly `AllLines`: every close pair i < j once, in loop order |
| ProjectsSection.CategoryIdsAreIds | src/app/components/ProjectsSection.tsx:147-151 | the filter ids, in order, are distinct and include "all" |
| ProjectsSection.Catalogue | src/app/components/ProjectsSection.tsx:153-202 | definition: the four projects with their technologies, links, categories and featured flags; its layout is stated by `CatalogueHasLayout` |
| ProjectsSection.FilteredProjects | src/app/components/ProjectsSection.tsx:205-207 | "all" gives the whole list; any other filter gives exactly the projects of that category |
| ProjectsSection.FilterKeepsOrder | src/app/components/ProjectsSection.tsx:207 | the filtered list keeps the original order |
| ProjectsSection.ExactlyOneFilterHighlighted | src/app/components/ProjectsSection.tsx:144-234 | for any filter reachable by clicks, exactly one button is highlighted: the one whose id is the filter |
| ProjectsSection.FeaturedProjects | src/app/components/ProjectsSection.tsx:252-253 | definition of the featured block's list; its properties are in `FeaturedBlockIffNonEmpty`, `FeaturedAndGridPartition` and `AllViewFeatured` |
| ProjectsSection.GridProjects | src/app/components/ProjectsSection.tsx:355-356 | definition of the grid's list; its properties are in `FeaturedAndGridPartition` and `AllViewGrid` |
| ProjectsSection.ShowsFeaturedBlock | src/app/components/ProjectsSection.tsx:244 | definition of the condition that renders the featured block; `FeaturedBlockIffNonEmpty` and `LanguageView` state its properties |
| ProjectsSection.FeaturedBlockIffNonEmpty | src/app/components/ProjectsSection.tsx:244-254 | the featured block is rendered iff it has at least one project to list |
| ProjectsSection.FeaturedAndGridPartition | src/app/components/ProjectsSection.tsx:252-356 | the featured list holds exactly the featured projects and the grid exactly the others; together they hold the filtered list |
| ProjectsSection.ShownDescription | src/app/components/ProjectsSection.tsx:396-399 | a description over 140 characters becomes its first 140 plus "..." (143 in all); a shorter one is unchanged |
| ProjectsSection.ShownDescriptionBounded | src/app/components/ProjectsSection.tsx:396-399 | a shown description has at most 143 characters and starts with the original's first 140 |
| ProjectsSection.ShownDescriptionIdempotent | src/app/components/ProjectsSection.tsx:396-399 | cutting an already cut description changes nothing |
| ProjectsSection.TechBadges | src/app/components/ProjectsSection.tsx:377-389 | the first min(3, n) technologies are shown, with a "+" badge iff n > 3 |
| ProjectsSection.BadgesCountEveryTechnology | src/app/components/ProjectsSection.tsx:377-389 | named badges plus the "+n" count add up to the number of technologies |
| ProjectsSection.FeaturedButtons | src/app/components/ProjectsSection.tsx:290-344 | a button for each present link, in the order code, case study, demo, download |
| ProjectsSection.GridButtons | src/app/components/ProjectsSection.tsx:403-444 | a button for each present link except the download, in the order code, case study, demo |
| ProjectsSection.KeepButton | src/app/components/ProjectsSection.tsx:403-444 | dropping downloads from one optional button leaves it unless it is the download |
| ProjectsSection.GridButtonsAreFeaturedWithoutDownload | src/app/components/ProjectsSection.tsx:290-444 | a grid card's buttons are the featured card's buttons minus the download |
| ProjectsSection.KeepFour | src/app/components/ProjectsSection.tsx:153-202 | filtering the four-project list keeps each project exactly when it satisfies the predicate, in order |
| ProjectsSection.CatalogueHasLayout | src/app/components/ProjectsSection.tsx:153-202 | the four projects have ids 1 to 4 and categories ml, nlp, ml, nlp, and only project 1 is featured |
| ProjectsSection.MachineLearningView | src/app/components/ProjectsSection.tsx:205-207 | under "ml" the section lists projects 1 and 3 |
| ProjectsSection.LanguageView | src/app/components/ProjectsSection.tsx:205-244 | under "nlp" it lists projects 2 and 4 and has no featured block |
| ProjectsSection.AllViewFeatured | src/app/components/ProjectsSection.tsx:244-253 | under "all" project 1 alone is featured |
| ProjectsSection.AllViewGrid | src/app/components/ProjectsSection.tsx:355-356 | under "all" projects 2, 3 and 4 form the grid, in that order |
| ZriveProjectSection.ModuleIdsAreIds | src/app/components/ZriveProjectSection.tsx:9-137 | the module ids are distinct and none is "overview", so the pill keys are distinct |
| ZriveProjectSection.StatusBadge | src/app/components/ZriveProjectSection.tsx:139-160 | "completed" maps to Completed and "in-progress" to In Progress; every other status maps to Upcoming |
| ZriveProjectSection.AllModulesCompleted | src/app/components/ZriveProjectSection.tsx:139-160 | every module shows the completed badge |
| ZriveProjectSection.PillLabel | src/app/components/ZriveProjectSection.tsx:286 | a pill's label is the part of the title before the first ':' |
| ZriveProjectSection.LabelBeforeColon | src/app/components/ZriveProjectSection.tsx:286 | a title with its first ':' at position 8 has the first 8 characters as its label |
| ZriveProjectSection.PillLabelsAreModuleNumbers | src/app/components/ZriveProjectSection.tsx:286 | every module pill reads the first 8 characters of its title, "Module n" |
| ZriveProjectSection.Click | src/app/components/ZriveProjectSection.tsx:273-283 | clicking a pill selects its key, and that pill is highlighted |
| ZriveProjectSection.ExactlyOnePillHighlighted | src/app/components/ZriveProjectSection.tsx:267-285 | exactly one pill is highlighted when the selection is "overview" or a module id |
| ZriveProjectSection.ShowsOverview | src/app/components/ZriveProjectSection.tsx:293 | definition: the overview panel is rendered iff the selection is "overview"; counted by `OnePanelShown` |
| ZriveProjectSection.ShownModulePanels | src/app/components/ZriveProjectSection.tsx:417-419 | definition: the module panels rendered are those whose id is the selection; `OnePanelShown` states their properties |
| ZriveProjectSection.PanelCount | src/app/components/ZriveProjectSection.tsx:293-419 | definition of the number of panels rendered; `OnePanelShown` fixes it |
| ZriveProjectSection.OnePanelShown | src/app/components/ZriveProjectSection.tsx:293-419 | exactly one panel is shown for a selection made through the pills, none for any other key; a module panel shown is the selected one |
| ZriveProjectSection.ShowsWorkshopImage | src/app/components/ZriveProjectSection.tsx:188 | definition: a module panel shows its photo iff `workshopImage` is truthy; `OnlyModuleSixHasWorkshopImage` states which modules do |
| ZriveProjectSection.OnlyModuleSixHasWorkshopImage | src/app/components/ZriveProjectSection.tsx:116-188 | only module 6 renders a workshop photo |

## Left out

- Canvas drawing is not modelled: clearing, dots, strokes, colours and line width. Only the lines' endpoints and opacity are.
- `requestAnimationFrame` scheduling and teardown are not modelled. `Field.Step` followed by `Field.Connections` is one frame.
- Event listener registration and removal are not modelled. The handlers are methods the caller invokes.
- Square roots and floating-point rounding are not modelled. Positions and velocities are exact reals and distances are inputs satisfying `IsDistance`.
- Field.Resize: the device-pixel-ratio canvas sizing and the `ctx.scale` call are rendering state and are left out.
- The failed canvas or context lookup that makes the effect return early is not modelled.
- `Math.random()` is not modelled. Its draws are inputs, each assumed in [0, 1).
- ParticleField.Field.Mount: in the source the first frame runs right after mounting. Here the caller runs `Step` and `Connections`.
- framer-motion `useScroll`/`useTransform` interpolation, the letter-stagger and blob animations, and the progress bars are not modelled. They are library configuration whose code is not part of this model.
- The brand, skill and contact markup is not modelled: logos, colours, gradients, and the dot colour choice beyond its size.
- The nav buttons' `scrollIntoView` is not modelled. It is a browser call.
- The three.js hero sphere, the certificate page (clipboard, DOM mutation, timers), the CV download route and the static sections are not part of this model. They are I/O or markup without decisions.
- The translation function `t` is a parameter and its dictionaries are not modelled.
- The `ProjectCard` component is not modelled, because nothing renders it.
- The featured card's full technology list, the images and the alt texts are not modelled. They are markup.
- ProjectsSection.ShownDescription: lengths count characters of the model's string. JavaScript counts UTF-16 code units, so the two differ only for characters outside the Basic Multilingual Plane.
- ZriveProjectSection.PillLabelsAreModuleNumbers: states that each pill reads the title's first eight characters, without spelling out the digit of each module.
- The module panels' text, achievements and the "quick stats" block are not modelled. They are markup.
