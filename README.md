# React component gallery — verified model of its view logic

The repository is a gallery of React components: scrollytelling sections,
a route map, a quadrant chart, drill-down chart data. Its pages are selected by
the location hash. Nearly all of it is markup. A few small rules inside the views
decide what the user sees, and this Dafny project models them and proves what they
promise:

- **Scrollytelling.** Scroll progress selects a step. The timeline uses an
  inclusive-endpoint quantiser; highlight-step uses even buckets capped at 0.9999;
  sticky-side uses a per-card 0.35 threshold. Each tracker also has an active-index
  re-clamp, a `scrollToStep` that inverts the quantiser, and a centred sticky top.
- **Route map.** `normalizeCoordinates` validates the coordinates with ordered
  error precedence and serialises them. `getRouteMeta` computes the bounding box.
  The model also covers the choice between the fetched route and the given points,
  the marker list, the guard of the directions request and the container-size
  updater.
- **Quadrant chart.** Domain validation, the reference lines, the merged margin
  and the arithmetic of both axis arrows.
- **Hash selection.** The component gallery, the best-practice page and the
  examples page all select by location hash: strip one '#', match a nav id or
  fall back, write back, and re-read on `hashchange`. Each page then switches
  between its sections.
- **Derived data.** The drill-down tables and the chart points built from the
  same records. The pie palette reducer. The radar sticky-side zip of dimensions
  with value series.
- **Map-route timelines.** The progress clamp of the two demos.

Progress, coordinates and geometry are `real`. JavaScript specifics are written
out where they matter:

- `x / 0` is `+Infinity` (`Extended`);
- `Math.round` rounds halves up;
- an object spread copies a present `undefined` (`QuadrantChart.Field`);
- `arr[i]` past the end is `undefined` (`Option`).

Side effects are returned as values instead of performed:

- `window.scrollTo` becomes a `ScrollCommand`;
- the `location.hash` assignment becomes `Option<string>`;
- React's functional updates become `KeepCurrent`/`KeepPrevious` values.

Classes hold the state that handlers overwrite: `activeIndex`, the selected id and
the map demos' `progress`.

Layout:

- `optional.dfy`: the `Option` type.
- `scroll_progress.dfy`: clamps, index clamping, the centred top, the section
  geometry and the assumed progress relation.
- `timeline.dfy`, `highlight_step.dfy`, `sticky_side.dfy`: one file per tracker.
- `map_route.dfy`, `quadrant_chart.dfy`: the map and the chart.
- `hash_routing.dfy`: the shared hash selection.
- `components_gallery.dfy`: the gallery's controls and option highlighting.
- `scrollytelling_pages.dfy`: the shared section switch and the two pages.
- `drilldown_data.dfy`, `scrollytelling_data.dfy`: the derived data.
- `map_route_timeline.dfy`: the timeline demos' progress.

## Model

| member | source | states |
|---|---|---|
| ScrollProgress.Clamp | src/best-practice/scrollytelling/Timeline.tsx:142 | the clamped progress lies in [lo, hi], equals the input inside it and the nearer bound outside it |
| ScrollProgress.ClampIndex | src/best-practice/scrollytelling/Timeline.tsx:157 | the clamped requested step is a valid index, the request itself when valid, 0 below the list and the last step above it |
| ScrollProgress.ReclampIndex | src/best-practice/scrollytelling/Timeline.tsx:136-138 | after a step-count change the index is 0 for an empty list, otherwise valid; an in-range index is unchanged and an out-of-range one drops to the last step |
| ScrollProgress.CenteredTop | src/best-practice/scrollytelling/Timeline.tsx:119-120 | the sticky top is never below minTop nor below the centring offset, and is one of the two |
| ScrollProgress.CenteredTopCentres | src/best-practice/scrollytelling/Timeline.tsx:119-120 | a panel that fits with minTop to spare is centred exactly in the viewport; otherwise it is pinned at minTop |
| ScrollProgress.SectionTop | src/best-practice/scrollytelling/Timeline.tsx:152-153 | the section's document top is its viewport top shifted by the current scroll |
| ScrollProgress.ScrollRange | src/best-practice/scrollytelling/Timeline.tsx:154-155 | there is room to scroll exactly when the section is taller than the viewport; the range is the section height less one viewport |
| ScrollProgress.ObservedProgress | src/best-practice/scrollytelling/Timeline.tsx:101-104 | the tracked progress ("start start" to "end end") is 0 exactly at the section top, 1 exactly one scroll range below it, and in [0, 1] exactly in between |
| ScrollProgress.ScrollOffset | src/best-practice/scrollytelling/Timeline.tsx:151-159 | the scroll offset is infinite iff the target progress is; a finite offset is observed by the scroll library as exactly the target progress |
| Timeline.StepIndex | src/best-practice/scrollytelling/Timeline.tsx:140-145 | the selected step is a valid index; progress ≤ 0 selects the first step and progress ≥ 1 the last |
| Timeline.StepIndexMonotone | src/best-practice/scrollytelling/Timeline.tsx:142-143 | more progress never selects an earlier step |
| Timeline.StepOwnsBucket | src/best-practice/scrollytelling/Timeline.tsx:142-143 | with at least two steps and progress below 1, step i is selected exactly on [i/(n−1), (i+1)/(n−1)) |
| Timeline.StickyTop | src/best-practice/scrollytelling/Timeline.tsx:116-121 | the sticky top is never below minTop (0 vertical, 40 horizontal) and is the centring offset otherwise |
| Timeline.AsWrittenTargetProgress | src/best-practice/scrollytelling/Timeline.tsx:158 | the code's target progress is +Infinity exactly when there is a single step |
| Timeline.AsWrittenScrollTarget | src/best-practice/scrollytelling/Timeline.tsx:147-162 | the code scrolls nothing without a section, without steps or without room to scroll; otherwise it scrolls to +Infinity iff there is one step, and with two or more steps to an offset observed as (clamped index + 0.001)/(n − 1) |
| Timeline.AsWrittenSingleStepScrollsToInfinity | src/best-practice/scrollytelling/Timeline.tsx:150-161 | for a single-step timeline with room to scroll the code asks the window to scroll to +Infinity |
| Timeline.TargetProgress | src/best-practice/scrollytelling/Timeline.tsx:157-158 | the corrected target progress is positive and equals the code's value whenever there are two or more steps |
| Timeline.TargetProgressRoundTrip | src/best-practice/scrollytelling/Timeline.tsx:157-159 | quantising the corrected target progress gives back the clamped requested step for every step count; the last step gets there through the clamp to 1 |
| Timeline.ScrollTarget | src/best-practice/scrollytelling/Timeline.tsx:147-162 | the corrected scroll command equals the code's whenever there are two or more steps |
| Timeline.TimelineTracker.constructor | src/best-practice/scrollytelling/Timeline.tsx:140-145 | the tracker starts at step 0 with a valid index |
| Timeline.TimelineTracker.OnProgress | src/best-practice/scrollytelling/Timeline.tsx:140-145 | the progress handler does nothing without steps and otherwise sets the quantised index, keeping it valid |
| Timeline.TimelineTracker.OnStepCountChange | src/best-practice/scrollytelling/Timeline.tsx:136-138 | the step-count effect re-clamps the index, so it stays valid |
| Timeline.TimelineTracker.ScrollTargetFor | src/best-practice/scrollytelling/Timeline.tsx:147-162 | no scroll without a section, without steps or without room to scroll; otherwise a finite offset whose observed progress selects the clamped requested step again |
| HighlightStep.StepIndex | src/examples/scrollytelling/HighlightStep.tsx:119-124 | the selected step is a valid index; progress ≤ 0 selects step 0; progress at or above the cap selects min(n−1, ⌊0.9999·n⌋) |
| HighlightStep.LastStepReachedIff | src/examples/scrollytelling/HighlightStep.tsx:121-122 | progress ≥ 1 selects the last step iff there are at most 10000 steps |
| HighlightStep.StepIndexMonotone | src/examples/scrollytelling/HighlightStep.tsx:121-122 | more progress never selects an earlier step |
| HighlightStep.StepOwnsBucket | src/examples/scrollytelling/HighlightStep.tsx:122 | up to the cap, step i is selected exactly on [i/n, (i+1)/n) |
| HighlightStep.StickyTop | src/examples/scrollytelling/HighlightStep.tsx:95-100 | the sticky top is never below 40 and is the centring offset otherwise |
| HighlightStep.TargetProgress | src/examples/scrollytelling/HighlightStep.tsx:136-137 | the target progress lies strictly inside (0, 1) and sits 0.001/n above the start of the clamped step's bucket |
| HighlightStep.OnlyLastTargetExceedsCap | src/examples/scrollytelling/HighlightStep.tsx:119-138 | with at most 10000 steps only the last step's target progress can exceed the 0.9999 cap |
| HighlightStep.TargetProgressRoundTrip | src/examples/scrollytelling/HighlightStep.tsx:136-138 | with 1 to 10000 steps, quantising the target progress gives back the clamped requested step |
| HighlightStep.RoundTripFailsAboveLimit | src/examples/scrollytelling/HighlightStep.tsx:119-138 | with 20000 steps, scrolling to the last step selects the one before it, so the limit of 10000 cannot be dropped |
| HighlightStep.ScrollTarget | src/examples/scrollytelling/HighlightStep.tsx:126-141 | no scroll exactly without a section, without steps or without room to scroll; any scroll is to a finite offset |
| HighlightStep.HighlightStepTracker.constructor | src/examples/scrollytelling/HighlightStep.tsx:119-124 | the tracker starts at step 0 with a valid index |
| HighlightStep.HighlightStepTracker.OnProgress | src/examples/scrollytelling/HighlightStep.tsx:119-124 | the progress handler does nothing without steps and otherwise sets the quantised index, keeping it valid |
| HighlightStep.HighlightStepTracker.OnStepCountChange | src/examples/scrollytelling/HighlightStep.tsx:115-117 | the step-count effect re-clamps the index, so it stays valid |
| HighlightStep.HighlightStepTracker.ScrollTargetFor | src/examples/scrollytelling/HighlightStep.tsx:126-141 | no scroll without a section, steps or room to scroll; otherwise a finite offset that selects the clamped requested step again whenever there are at most 10000 steps |
| StickySide.StickyTop | src/examples/scrollytelling/StickySide.tsx:99 | the sticky top is never negative and is the centring offset otherwise |
| StickySide.PanelFor | src/examples/scrollytelling/StickySide.tsx:152-161 | a panel is active iff it shows the active step; the active one is not shifted, earlier ones are shifted by −24 and later ones by +24 |
| StickySide.Activates | src/examples/scrollytelling/StickySide.tsx:213-218 | a card scrolled fully through (progress ≥ 1) calls `onActive`; one at most a third in does not |
| StickySide.Panels | src/examples/scrollytelling/StickySide.tsx:151-153 | one panel per step, in order, and none for an empty step list |
| StickySide.ExactlyOneActivePanel | src/examples/scrollytelling/StickySide.tsx:152 | exactly one panel is active when the active index names a step, none otherwise |
| StickySide.PanelOffsetsOrdered | src/examples/scrollytelling/StickySide.tsx:153 | panel offsets never decrease along the list |
| StickySide.StickySideTracker.constructor | src/examples/scrollytelling/StickySide.tsx:87 | the active index starts at 0, in range whenever there is a step |
| StickySide.StickySideTracker.OnCardProgress | src/examples/scrollytelling/StickySide.tsx:213-218 | a card claims the panel only above 0.35 progress; at or below it nothing changes, so dropping back never deactivates a card; the index stays in range |
| StickySide.StickySideTracker.OnStepsReplaced | src/examples/scrollytelling/StickySide.tsx:126-134 | a new step list leaves the index untouched (no re-clamp), so it is in range exactly when it is below the new count |
| MapRoute.CheckCoordinate | src/best-practice/maps/MapRoute.tsx:57-83 | one coordinate is refused as not a pair, then as not a number, then as out of the inclusive ranges, in that order; otherwise accepted as its two numbers |
| MapRoute.ValidatePoints | src/best-practice/maps/MapRoute.tsx:56-86 | all coordinates accepted gives their points in order; otherwise the error of the first refused coordinate |
| MapRoute.StopPersists | src/best-practice/maps/MapRoute.tsx:57-83 | once a prefix is refused the whole list is refused with the same error (the early return) |
| MapRoute.Normalized | src/best-practice/maps/MapRoute.tsx:45-92 | a count outside 2..25 gives the count error whatever the contents; every error has no points and an empty path; success iff the count is admissible and every pair passes; success gives the input pairs in order and their serialisation |
| MapRoute.FirstRefusalDecides | src/best-practice/maps/MapRoute.tsx:57-83 | with an admissible count, the first coordinate that fails decides the error |
| MapRoute.NormalizeCoordinates | src/best-practice/maps/MapRoute.tsx:45-92 | the loop with early returns computes exactly the normalised result |
| MapRoute.Split | src/best-practice/maps/MapRoute.tsx:89 | the decoder of the `join(";")`/`` `${lng},${lat}` `` format that `SerializedRoundTrip` is stated against (the source itself never splits): one more piece than separators, none containing the separator |
| MapRoute.SplitJoin | src/best-practice/maps/MapRoute.tsx:89 | joining separator-free pieces and splitting again gives the pieces back |
| MapRoute.JoinSeparatorCount | src/best-practice/maps/MapRoute.tsx:89 | joining n separator-free pieces puts exactly n − 1 separators in the result |
| MapRoute.SerializedRoundTrip | src/best-practice/maps/MapRoute.tsx:89 | the path splits at ';' into one "lng,lat" piece per point, in order, with n − 1 semicolons, and each piece splits at ',' into the two numerals |
| MapRoute.GetRouteMeta | src/best-practice/maps/MapRoute.tsx:107-136 | no metadata iff the route is empty; otherwise every point lies in the box, each side of the box touches a point, and the centre is the box's midpoint |
| MapRoute.RouteCoordinates | src/best-practice/maps/MapRoute.tsx:171-179 | a non-empty fetched route is used, cut to longitude and latitude per position; otherwise the validated points |
| MapRoute.ResolvedMarkers | src/best-practice/maps/MapRoute.tsx:185-197 | one marker per validated point, in order, with the icon configured at the same index; it uses the default pin iff it has no icon |
| MapRoute.RouteRequestFor | src/best-practice/maps/MapRoute.tsx:199-211 | the effect stays idle iff there is no token or the prop is invalid; it reports too few points iff the prop is valid with fewer than two; a fetch asks for the serialised path of at least two points |
| MapRoute.TooFewPointsUnreachable | src/best-practice/maps/MapRoute.tsx:199-211 | after normalisation the "at least two coordinates" branch is never taken; a fetch happens iff there is a token and the prop is valid |
| MapRoute.RoundJs | src/best-practice/maps/MapRoute.tsx:275-276 | `Math.round` gives the integer within half a unit, halves rounded up |
| MapRoute.NextContainerSize | src/best-practice/maps/MapRoute.tsx:274-281 | the previous size object is kept iff both rounded measurements equal it; the size afterwards is always the rounded one |
| MapRoute.RepeatedMeasurementKeeps | src/best-practice/maps/MapRoute.tsx:274-281 | a repeated measurement keeps the object the first one produced |
| QuadrantChart.GetNumberDomain | src/components/prebuild/data/QuadrantChart.tsx:324-330 | a domain resolves iff it is an array of at least two entries whose first two are finite numbers, and then it is exactly those two |
| QuadrantChart.DomainIgnoresRest | src/components/prebuild/data/QuadrantChart.tsx:324-330 | entries after the first two never change the result |
| QuadrantChart.ResolveDomain | src/components/prebuild/data/QuadrantChart.tsx:302-303 | the computed domain wins; the prop domain is used only when the computed one is rejected |
| QuadrantChart.Midline | src/components/prebuild/data/QuadrantChart.tsx:304-305 | a midline exists iff a domain resolved; it lies between the ends and is equidistant from both |
| QuadrantChart.EndLines | src/components/prebuild/data/QuadrantChart.tsx:314-317 | a resolved axis draws lines at both domain ends, lo first; an unresolved one draws none |
| QuadrantChart.MidLines | src/components/prebuild/data/QuadrantChart.tsx:318-319 | a resolved axis draws one line halfway between its ends; an unresolved one draws none |
| QuadrantChart.ReferenceLines | src/components/prebuild/data/QuadrantChart.tsx:299-322 | three lines per resolved axis and none for an unresolved one; each resolved axis gets a line at both ends and at its midline; no other lines; with both axes resolved the lines come in render order x ends, y ends, x midline, y midline |
| QuadrantChart.Coalesce | src/components/prebuild/data/QuadrantChart.tsx:72-74 | `margin?.k ?? 5` gives a supplied number and the default otherwise, an explicit undefined included |
| QuadrantChart.SpreadTop | src/components/prebuild/data/QuadrantChart.tsx:69-71 | the spread leaves the default 5 when `margin` or its top is absent, the supplied top when given, and undefined exactly when `margin` holds an explicit undefined top |
| QuadrantChart.ResolvedMargin | src/components/prebuild/data/QuadrantChart.tsx:66-75 | top is the default 5, the supplied top, or undefined when the prop spreads an undefined top; left and right both add the y-axis label width (default 100); bottom adds the x-axis label height (default 100) |
| QuadrantChart.DefaultMarginValues | src/components/prebuild/data/QuadrantChart.tsx:48-75 | without props the margin is 5 on top and 105 elsewhere; equal given left and right margins stay equal |
| QuadrantChart.AxisArrowHorizontal | src/components/prebuild/data/QuadrantChart.tsx:105-196 | nothing without offset and plot area or when the bottom offset or plot width is not positive; otherwise a shaft below the plot from 33% to 66% of its width; the tip is its right end; the head is symmetric about the shaft; edge labels sit the horizontal gap beyond the ends; the axis label sits the vertical gap below, over the plot's middle |
| QuadrantChart.AxisArrowVertical | src/components/prebuild/data/QuadrantChart.tsx:198-292 | nothing without offset and plot area or when the left offset or plot height is not positive; otherwise a shaft left of the plot; the tip is its upper end, never below the start; the head is symmetric; the end label sits the vertical gap above the tip and the start label the same gap below the start; the axis label sits the horizontal gap left at mid-height |
| QuadrantChart.LabelsClearOfShaft | src/components/prebuild/data/QuadrantChart.tsx:129-227 | with non-negative gaps the edge labels lie outside the shaft's span on both arrows |
| HashRouting.StripHash | src/gallery/ComponentsGallery.tsx:40 | a leading '#' is removed and any other hash is kept |
| HashRouting.StripHashRemovesOnlyOne | src/gallery/ComponentsGallery.tsx:40 | only one leading '#' goes: "##id" strips to "#id" |
| HashRouting.Find | src/gallery/ComponentsGallery.tsx:41 | the lookup finds an entry iff the id is a nav id, and then yields that id |
| HashRouting.Resolve | src/gallery/ComponentsGallery.tsx:40-42 | the stripped hash when it is a nav id, otherwise the first nav id, or empty with no nav; with a non-empty nav always a nav id |
| HashRouting.InitialId | src/gallery/ComponentsGallery.tsx:36-43 | the initial selection resolves the hash, or takes the first nav id without a window; always a nav id when there is one |
| HashRouting.HashAfterAssign | src/gallery/ComponentsGallery.tsx:77 | after `location.hash = id` the hash is "#" followed by the id, and stripping it gives the id back |
| HashRouting.ResolveWrittenHash | src/gallery/ComponentsGallery.tsx:61-79 | resolving the hash written for a nav id selects that id again |
| HashRouting.HashChangeUpdate | src/gallery/ComponentsGallery.tsx:61-66 | the handler keeps the current value iff it already is the resolved id; the state afterwards is always the resolved id |
| HashRouting.WriteBack | src/gallery/ComponentsGallery.tsx:71-79 | the hash is assigned, with the selected id, iff an id is selected and the hash does not already name it |
| HashRouting.WriteBackThenHashChangeKeeps | src/gallery/ComponentsGallery.tsx:61-79 | writing back a nav id and handling the resulting hashchange keeps the selection, and no further write-back follows |
| HashRouting.HashSelection.constructor | src/gallery/ComponentsGallery.tsx:36-43 | the selection starts at the initial id and is a nav id (or empty without nav) |
| HashRouting.HashSelection.OnHashChange | src/gallery/ComponentsGallery.tsx:61-66 | a hashchange applies the handler's update, so the selection becomes the resolved id and stays a nav id |
| HashRouting.HashSelection.Select | src/gallery/ComponentsGallery.tsx:130 | a nav click selects that nav id |
| HashRouting.HashSelection.HashToWrite | src/gallery/ComponentsGallery.tsx:71-79 | the write-back assignment happens iff an id is selected and the hash differs, and the written hash resolves back to the selection |
| ComponentsGallery.FindIndexFrom | src/gallery/ComponentsGallery.tsx:46 | the position found is the first entry at or after the start with that id, and none means no such entry |
| ComponentsGallery.FindItem | src/gallery/ComponentsGallery.tsx:46 | an entry is found iff some entry has the id, and it is the first one |
| ComponentsGallery.ActiveControls | src/gallery/ComponentsGallery.tsx:46-48 | the listed controls are those of the first entry with the selected id, or none when no entry has it |
| ComponentsGallery.SelectionHasItsControls | src/gallery/ComponentsGallery.tsx:41-48 | with a non-empty nav the id any hash resolves to is an entry, whose controls are the ones listed |
| ComponentsGallery.OptionFlags | src/gallery/ComponentsGallery.tsx:89-90 | an option button is highlighted iff its value equals the control's current value |
| ComponentsGallery.AtMostOneActiveOption | src/gallery/ComponentsGallery.tsx:89-90 | with distinct option values at most one option is highlighted, and one is iff the current value is an option |
| SectionSelection.SectionFlags | src/best-practice/BestPracticePage.tsx:28-33 | a section's flag holds iff its id is selected and in the nav; the two flags never hold together; the media-side control is shown iff one holds |
| SectionSelection.RenderedSections | src/best-practice/BestPracticePage.tsx:129-162 | exactly one block renders: the sticky side section, the highlight step section, or the fallback message when neither flag holds |
| SectionSelection.ResolvedIdNeverFallsBack | src/best-practice/BestPracticePage.tsx:23-33 | with the two section ids as nav, the id any hash resolves to shows the media-side control and never the fallback |
| BestPracticePage.SectionsForHash | src/best-practice/BestPracticePage.tsx:19-162 | an unknown hash falls back to the sticky side section and a known one selects its own section |
| BestPracticePage.FallbackOnlyOutsideNav | src/best-practice/BestPracticePage.tsx:161-163 | "Select a component from the sidebar." shows iff the selection is not a nav id |
| ExamplesPage.SectionsForHash | src/examples/ExamplesPage.tsx:19-160 | an unknown hash falls back to the first nav id's section and a known one selects its own section |
| ExamplesPage.FallbackOnlyOutsideNav | src/examples/ExamplesPage.tsx:159-161 | "Select an example from the sidebar." shows iff the selection is not a nav id |
| DrilldownData.BuildUserTables | src/gallery/data/drilldown-data.ts:31-46 | always two tables, 'uv' then 'pv', with the given rows and the shared user columns |
| DrilldownData.DetailDataSets | src/gallery/data/drilldown-data.ts:120-125 | one data set per record, in order, with key, label and description copied and its two user tables |
| DrilldownData.BarLineData | src/gallery/data/drilldown-data.ts:127-131 | one point per week, in order, labelled with the week and counting its UV and PV users |
| DrilldownData.RadarData | src/gallery/data/drilldown-data.ts:304-308 | one point per dimension, in order, counting its UV and PV users |
| DrilldownData.BarLineCountsMatchTables | src/gallery/data/drilldown-data.ts:120-131 | point i's period is data set i's label and its counts are the row counts of that set's uv and pv tables |
| DrilldownData.RadarCountsMatchTables | src/gallery/data/drilldown-data.ts:297-308 | the radar points and data sets correspond per index in the same way |
| DrilldownData.OrdersTable | src/gallery/data/drilldown-data.ts:196-203 | a region's single table is 'orders' over its orders with emptyText "No " + label + " orders." |
| DrilldownData.PieDataSets | src/gallery/data/drilldown-data.ts:192-205 | one data set per region, in order, holding only its orders table |
| DrilldownData.PieData | src/gallery/data/drilldown-data.ts:207-211 | one slice per region, in order, valued at its number of orders |
| DrilldownData.PieCountsMatchTables | src/gallery/data/drilldown-data.ts:192-211 | slice i shares data set i's key and its value is the row count of that set's only table |
| DrilldownData.PaletteSlot | src/gallery/data/drilldown-data.ts:217 | the palette slot (index mod 5) + 1 lies in 1..5 |
| DrilldownData.PaletteWraps | src/gallery/data/drilldown-data.ts:217 | the palette repeats every five segments and otherwise advances by one |
| DrilldownData.PieConfig | src/gallery/data/drilldown-data.ts:213-222 | the reducer loop computes exactly the configuration after visiting every segment in order |
| DrilldownData.PieConfigKeys | src/gallery/data/drilldown-data.ts:213-222 | the configuration's keys are exactly the segments' keys |
| DrilldownData.PieConfigLastWins | src/gallery/data/drilldown-data.ts:215-218 | the last segment with a key decides that key's label and colour (with `PieConfigKeys` this fixes the whole map) |
| DrilldownData.ExportedPoints | src/gallery/data/drilldown-data.ts:48-308 | the exported points count 8/6, 7/5, 9/7 users per week, 6, 5, 4, 3 orders per region and 6/4, 5/3, 5/4, 4/3 users per dimension |
| DrilldownData.ExportedPieConfig | src/gallery/data/drilldown-data.ts:143-222 | the four regions get colours var(--chart-1) to var(--chart-4) |
| ScrollytellingData.At | src/gallery/scrollytelling/scrollytelling-data.ts:161-162 | an array read is defined iff the index is in range, and then it is the entry |
| ScrollytellingData.RadarStickyDatasets | src/gallery/scrollytelling/scrollytelling-data.ts:158-164 | one dataset per series, in order; one row per dimension, in order; row j of dataset i has dimension j and the series' j-th uv and pv |
| ScrollytellingData.CompleteRowsIff | src/gallery/scrollytelling/scrollytelling-data.ts:158-164 | no row has an undefined value iff every series has an entry for every dimension |
| ScrollytellingData.ExportedDatasetsComplete | src/gallery/scrollytelling/scrollytelling-data.ts:137-164 | the exported data has four datasets of five rows, none with an undefined value |
| MapRouteTimeline.ClampProgress | src/gallery/maps/map-route-htimeline.tsx:35 | the clamped progress lies in [0, 1], is the identity on [0, 1], 0 below and 1 above |
| MapRouteTimeline.ClampProgressIdempotent | src/gallery/maps/map-route-vtimeline.tsx:29 | clamping twice is clamping once |
| MapRouteTimeline.ClampProgressMonotone | src/gallery/maps/map-route-htimeline.tsx:35 | more scroll never gives less progress |
| MapRouteTimeline.TimelineMedia.constructor | src/gallery/maps/map-route-htimeline.tsx:38 | the progress state starts as the clamped reading, inside [0, 1] |
| MapRouteTimeline.TimelineMedia.OnProgress | src/gallery/maps/map-route-vtimeline.tsx:34-40 | every update stores the clamped reading, so the progress stays in [0, 1] and an in-range reading is stored as is |

The two map-route timeline demos define the same `clampProgress` and the same
media component:

- map-route-htimeline.tsx:35-46;
- map-route-vtimeline.tsx:29-40.

They are modelled once, in `MapRouteTimeline`. The table cites each file for
some of its members.

The best-practice page and the examples page share one implementation of the
hash logic (`HashRouting`) and of the section switch (`SectionSelection`). Their
initial resolution, handlers and write-back are at:

- BestPracticePage.tsx:19-26, 39-44 and 49-57;
- ExamplesPage.tsx:19-26, 37-42 and 47-55.

Both are the same code as ComponentsGallery.tsx:36-43, 61-66 and 71-79.

Where a plain-words reading and the code differ, the model follows the code.
`margin.top` is not `margin.top ?? 5`: QuadrantChart.tsx:70-71 spreads the prop over
the defaults, so a present `undefined` top overrides the default 5
(`QuadrantChart.ResolvedMargin`).

The round-trip lemmas take the scroll library's progress relation as given:
progress = (scroll − sectionTop)/(offsetHeight − innerHeight)
(`ScrollProgress.ObservedProgress`).

## Left out

- The Timeline model uses `Timeline.TargetProgress`, which corrects the single-step division described under Findings. The as-written version is kept beside it as `Timeline.AsWrittenTargetProgress` and `Timeline.AsWrittenScrollTarget`.
- JSX markup, class strings and `motion` animations (`useSpring`, `useTransform`, opacity and offset transitions). They are rendering, and the panel offsets are modelled as the targets handed to the animation.
- `useScroll` and the scroll library itself. Progress is an input. Its relation to the scroll position is an explicit assumption (`ScrollProgress.ObservedProgress`) used only by the round trips.
- Event and observer wiring: `ResizeObserver`, `addEventListener`/`removeEventListener`, `window.scrollTo`, the `location.hash` assignment and the `typeof window` server-rendering guards of the effects. Effects are returned as values. The initial state's server branch is modelled (`HashRouting.InitialId` with `None`).
- StickySide's `stickyTop === null` hidden state before the first measurement. This is rendering only.
- MapRoute's Mapbox Directions fetch, `AbortController`, the response handling and its error strings, `buildFeatureCollection`, `renderMarkerIcon`, `fitBounds`/`flyTo` and the padding arithmetic. These are network I/O and calls into the map library. Only the request guard is kept (`MapRoute.RouteRequestFor`).
- Number-to-string conversion (`${lng}`). It is the parameter `show`, assumed never to produce ',' or ';'. `Number(...)` on the coordinate entries and the gallery's `Number(mapRouteProgress)` parse are taken as already done: entries arrive as `JsNumber`.
- IEEE-754 rounding. Reals are used throughout, so bucket boundaries are exact and 0.9999 and 0.001 are exact constants.
- `HashRouting.HashAfterAssign`: the browser's percent-encoding of characters in an assigned hash is not modelled. Ids are assumed to read back unchanged, which holds for the gallery's plain ids.
- `ComponentsGallery`: the concrete control configurations and nav lists come from index files outside this model. The nav and the option values are parameters.
- The drill-down chart click handlers. They adapt chart payloads to a drill-down component that is not part of this model.
- `QuadrantChart`: style props other than the four numeric ones (colours, font sizes and weights) pass straight to SVG and are not modelled. Nor are the recharts hooks `useOffset`, `usePlotArea`, `useXAxisDomain` and `useYAxisDomain`, whose results are inputs.

## Findings

| source | as written | input that shows it | evidently intended | confidence | as-written member | corrected member |
|---|---|---|---|---|---|---|
| src/best-practice/scrollytelling/Timeline.tsx:158 | `targetProgress = (clampedIndex + 0.001) / (steps.length - 1)` divides by zero when the timeline has one step, giving `+Infinity`; `window.scrollTo({ top: Infinity })` then does not scroll into the section (CSSOM treats a non-finite top as 0) | `steps.length == 1`, any index, a section taller than the viewport | scroll to the section's only step, for example by dividing by `max(steps.length - 1, 1)` | not executed | Timeline.AsWrittenSingleStepScrollsToInfinity | Timeline.TargetProgressRoundTrip |
