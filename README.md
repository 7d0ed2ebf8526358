# AstroFuture: the rules behind the pages

AstroFuture is a Next.js site about near-Earth objects. It has a close-approach
history of an asteroid with a plot around the Sun, an explorer catalogue with a
detail view, a home-page carousel, two quizzes and a translated interface.
This project models, in Dafny, the discrete logic inside those React
components and proves what it guarantees:

- **Close-approach history** (`historico.dfy`, `approach_filter_menu.dfy`):
  - ingesting the feed: the Moon is dropped, abbreviated planet names are expanded, and approaches are sorted by epoch;
  - the slider bounds and the planet buttons derived from the approaches;
  - the year/planet filter and the sort by date or distance;
  - the page state and its handlers, and the filter panel's planet toggle, sort arrow and slider state.
- **Solar-system plot** (`solar_system_plot.dfy`):
  - grouping approaches per planet and sorting each bucket by lunar distance;
  - the largest distance per planet;
  - the seeded in-place shuffle of alternating sides, and the map from epoch to side.
- **Explorer** (`main_view.dfy`, `featured_object_viewer.dfy`, `asteroid_image.dfy`, `trajectory_simulation.dfy`):
  - the search/type/hazard filter chain, the type selector, the detail-dialog selection and the focus parameter;
  - the wrapping carousel;
  - the asteroid size category;
  - the clamped animation period and the scale that fits an orbit drawing in its box.
- **Quizzes** (`cuestionario.dfy`, `quiz_page.dfy`, `quiz_minigame.dfy`):
  - the small question widget as a state machine;
  - the generated quiz's answers, grading and option colours;
  - the minigame's perfect/good/bad/lost verdict.
- **Translation** (`language_context.dfy`, `strings.dfy`): `t` walks a dotted key through a nested table, falls back to the key, and fills `{{k}}` placeholders.
- **Data** (`planetary_data.dfy`, `orbital_data_presets.dfy`, `decimal.dfy`): the planet table and its adapter, and the four NEO-class presets. Their decimal strings are read by a model of `parseFloat`.

**Shared modules.**

- `Lists` models `filter` and `[...new Set(..)]`.
- `Sorting` models the stable `Array.prototype.sort` with a numeric comparator.
- `Strings` models `toLowerCase`, `includes`, `replace` (with the first-occurrence search it performs) and `split`.
- `NeoTypes` holds the record shapes.

**How the source is modelled.**

- Component state becomes a class whose methods are the handlers.
- Derived values (`useMemo`) become functions.
- A loop in the source becomes a method with a loop, proved equal to a specification function.

## Model

| member | source | states |
|---|---|---|
| HistoricalPage.NormalizePlanetName | src/app/historico/page.tsx:11-22 | the result is the name itself or its full name from the table, and it is 'Moon' exactly when the input is |
| HistoricalPage.NormalizeIdempotent | src/app/historico/page.tsx:22 | normalising a normalised name changes nothing |
| HistoricalPage.NormalizeAbbreviations | src/app/historico/page.tsx:11-20 | Merc…Nep map to Mercury…Neptune |
| HistoricalPage.Normalized | src/app/historico/page.tsx:228-230 | as many entries as non-Moon approaches, none of them of the Moon |
| HistoricalPage.Ingest | src/app/historico/page.tsx:228-231 | one approach per normalised non-Moon approach; its order and contents are stated by IngestCorrect |
| HistoricalPage.IngestCorrect | src/app/historico/page.tsx:228-231 | the ingested list is sorted by epoch and is a permutation of the normalised non-Moon approaches |
| HistoricalPage.IngestDropsMoon | src/app/historico/page.tsx:228-230 | no ingested approach is of the Moon, and each is an input approach with its name normalised |
| HistoricalPage.IngestStable | src/app/historico/page.tsx:231 | approaches with equal epochs keep their feed order |
| HistoricalPage.Bodies | src/app/historico/page.tsx:156 | entry i is the body of approach i |
| HistoricalPage.MinYear | src/app/historico/page.tsx:158 | a lower bound of every year that is attained |
| HistoricalPage.MaxYear | src/app/historico/page.tsx:159 | an upper bound of every year that is attained |
| HistoricalPage.DeriveBounds | src/app/historico/page.tsx:153-162 | no approaches give 0, 0 and no planets; otherwise the ends are the smallest and largest year (bounds that are attained), and the planets are the bodies present, each once, in order of first appearance (Distinct) |
| HistoricalPage.FilterApproaches | src/app/historico/page.tsx:164-171 | the result keeps the input order, every kept approach passes the year and planet test, and each passing approach is kept as many times as it occurs, a failing one never |
| HistoricalPage.LoadedFilterKeepsAll | src/app/historico/page.tsx:235-243 | with the range and planets a load sets, the filter keeps every approach |
| HistoricalPage.LoadedShowsAll | src/app/historico/page.tsx:235-243 | after a load the displayed list is a permutation of all ingested approaches |
| HistoricalPage.SortApproaches | src/app/historico/page.tsx:173-185 | the displayed list is a permutation of the filtered one, ordered ascending or descending by epoch or kilometres |
| HistoricalPage.SortApproachesStable | src/app/historico/page.tsx:174 | approaches with equal sort values keep their filtered order |
| HistoricalPage.NextSortConfig | src/app/historico/page.tsx:201-207 | the clicked key becomes active; the direction flips on the active key and is descending on a new key |
| HistoricalPage.SortClickTwice | src/app/historico/page.tsx:201-207 | two clicks on the active key restore the sort order |
| HistoricalPage.NextSelection | src/app/historico/page.tsx:187-189 | clicking the selected approach deselects it; any other click selects that approach |
| HistoricalPage.SelectTwiceClears | src/app/historico/page.tsx:188 | two clicks on an unselected approach leave nothing selected |
| HistoricalPage.HistoricalView.constructor | src/app/historico/page.tsx:141-151 | no approaches, no selection, range 0..0, no planets, sort by date descending |
| HistoricalPage.HistoricalView.Load | src/app/historico/page.tsx:228-243 | the ingested list replaces the approaches; if non-empty, the range spans its years and every body is selected; selection and sort order are untouched |
| HistoricalPage.HistoricalView.SelectApproach | src/app/historico/page.tsx:187-189 | the selection toggles and nothing else changes |
| HistoricalPage.HistoricalView.YearChange | src/app/historico/page.tsx:191-194 | the new range is stored and the selection cleared |
| HistoricalPage.HistoricalView.PlanetChange | src/app/historico/page.tsx:196-199 | the new planets are stored and the selection cleared |
| HistoricalPage.HistoricalView.SortChange | src/app/historico/page.tsx:201-207 | the sort order becomes the next one and nothing else changes |
| ApproachFilterMenu.SortArrow | src/components/historical-components/approach-filter-menu.tsx:52-56 | no arrow off the active key; up for ascending, down for descending |
| ApproachFilterMenu.ExactlyOneArrow | src/components/historical-components/approach-filter-menu.tsx:52-56 | exactly one of the two sort buttons shows an arrow |
| ApproachFilterMenu.TogglePlanet | src/components/historical-components/approach-filter-menu.tsx:112 | the clicked planet's membership flips and every other planet's is kept; removal keeps the order, and addition appends |
| ApproachFilterMenu.ToggleUnselectedTwice | src/components/historical-components/approach-filter-menu.tsx:112 | two clicks on an unselected planet restore the selection exactly |
| ApproachFilterMenu.ToggleTwiceRestoresMembership | src/components/historical-components/approach-filter-menu.tsx:112 | two clicks on any planet restore which planets are selected |
| ApproachFilterMenu.FilterMenu.constructor | src/components/historical-components/approach-filter-menu.tsx:38 | the slider starts at the initial range |
| ApproachFilterMenu.FilterMenu.YearValueChange | src/components/historical-components/approach-filter-menu.tsx:44-46 | dragging sets the shown range |
| ApproachFilterMenu.FilterMenu.YearCommit | src/components/historical-components/approach-filter-menu.tsx:48-50 | releasing hands exactly the range to the page |
| ApproachFilterMenu.FilterMenu.InitialRangeChanged | src/components/historical-components/approach-filter-menu.tsx:40-42 | a new initial range replaces the shown range |
| SolarSystemPlot.OrbitsNested | src/components/historical-components/solar-system-plot.tsx:6-15 | the eight orbit radii strictly grow outwards |
| SolarSystemPlot.Frac | src/components/historical-components/solar-system-plot.tsx:36 | `x - floor(x)` lies in [0, 1) |
| SolarSystemPlot.PseudoRandom | src/components/historical-components/solar-system-plot.tsx:34-37 | every draw lies in [0, 1) |
| SolarSystemPlot.RandomIndex | src/components/historical-components/solar-system-plot.tsx:40 | the drawn index is a cell of the unshuffled prefix |
| SolarSystemPlot.SwapPermutes | src/components/historical-components/solar-system-plot.tsx:42 | a swap permutes the cells |
| SolarSystemPlot.ShuffleFromPermutes | src/components/historical-components/solar-system-plot.tsx:39-43 | the remaining shuffle steps permute the cells |
| SolarSystemPlot.Shuffle | src/components/historical-components/solar-system-plot.tsx:32-45 | the shuffle is a permutation of its input |
| SolarSystemPlot.ShuffleFromUsesOnlyItsSeeds | src/components/historical-components/solar-system-plot.tsx:34-43 | the result depends only on the draws at seed … seed + n - 1 |
| SolarSystemPlot.SeededShuffle | src/components/historical-components/solar-system-plot.tsx:32-45 | the in-place loop leaves the array holding the shuffle of its old contents and returns the same array |
| SolarSystemPlot.AlternatingSides | src/components/historical-components/solar-system-plot.tsx:72 | +1 at even and -1 at odd positions |
| SolarSystemPlot.AlternatingSidesCount | src/components/historical-components/solar-system-plot.tsx:72 | ceil(n/2) sides are +1 and floor(n/2) are -1 |
| SolarSystemPlot.ShuffledSidesCount | src/components/historical-components/solar-system-plot.tsx:72-74 | the shuffled sides keep those counts |
| SolarSystemPlot.ShuffledSidesAreSides | src/components/historical-components/solar-system-plot.tsx:72-74 | every shuffled side is +1 or -1 |
| SolarSystemPlot.ShuffledSides | src/components/historical-components/solar-system-plot.tsx:72-74 | the array shuffle of n alternating sides equals the specified shuffle, and every entry is a side |
| SolarSystemPlot.Bucket | src/components/historical-components/solar-system-plot.tsx:54-62 | a planet's bucket holds exactly the approaches of that planet |
| SolarSystemPlot.PlotBodies | src/components/historical-components/solar-system-plot.tsx:54-62 | the planets in the order their buckets are created, none twice; GroupsKeys ties them to the buckets |
| SolarSystemPlot.Groups | src/components/historical-components/solar-system-plot.tsx:54-62 | the buckets the push loop specifies; no contract of its own, as GroupsCover, GroupsKeys, GroupsContents and GroupsAreBuckets state what they hold |
| SolarSystemPlot.GroupsCover | src/components/historical-components/solar-system-plot.tsx:57-61 | every plotted approach has a bucket, and only the eight planets do |
| SolarSystemPlot.GroupsKeys | src/components/historical-components/solar-system-plot.tsx:58-60 | buckets exist exactly for the planets with approaches |
| SolarSystemPlot.GroupsContents | src/components/historical-components/solar-system-plot.tsx:54-62 | each bucket is its planet's approaches in input order, and non-empty |
| SolarSystemPlot.GroupsAreBuckets | src/components/historical-components/solar-system-plot.tsx:54-62 | the three facts above together |
| SolarSystemPlot.GroupByPlanet | src/components/historical-components/solar-system-plot.tsx:54-62 | the push loop builds exactly the specified buckets and first-appearance order |
| SolarSystemPlot.MaxDistIsMaximum | src/components/historical-components/solar-system-plot.tsx:68-69 | in a sorted bucket the last distance is the largest |
| SolarSystemPlot.DistFraction | src/components/historical-components/solar-system-plot.tsx:116 | 0 when the maximum is not positive, and in [0, 1] for distances up to the maximum |
| SolarSystemPlot.DistAngleWithinHalfTurn | src/components/historical-components/solar-system-plot.tsx:116 | every approach of a sorted bucket is drawn within pi of its planet |
| SolarSystemPlot.SideOf | src/components/historical-components/solar-system-plot.tsx:118 | a missing side reads as +1, and recorded sides stay sides |
| SolarSystemPlot.MaxDistOf | src/components/historical-components/solar-system-plot.tsx:99 | a missing planet reads as 0, a present one as its recorded distance |
| SolarSystemPlot.RecordedCovers | src/components/historical-components/solar-system-plot.tsx:75-77 | recording keeps earlier keys and gives every approach's epoch an entry |
| SolarSystemPlot.RecordedSides | src/components/historical-components/solar-system-plot.tsx:75-77 | recording sides into a map of sides leaves only sides |
| SolarSystemPlot.RecordedValues | src/components/historical-components/solar-system-plot.tsx:75-77 | with distinct epochs, approach i gets side i |
| SolarSystemPlot.RecordedLeavesOthers | src/components/historical-components/solar-system-plot.tsx:75-77 | entries of other epochs are left unchanged |
| SolarSystemPlot.AssignSides | src/components/historical-components/solar-system-plot.tsx:75-77 | the `forEach` loop yields the specified side map |
| SolarSystemPlot.PlanetSides | src/components/historical-components/solar-system-plot.tsx:72-74 | one side per approach of the bucket |
| SolarSystemPlot.SortedBucketsOf | src/components/historical-components/solar-system-plot.tsx:67-70 | the laid-out planets are the processed ones, each with its bucket sorted by distance |
| SolarSystemPlot.MaxDistancesOf | src/components/historical-components/solar-system-plot.tsx:67-70 | each processed planet records the last distance of its sorted bucket |
| SolarSystemPlot.SidesAreSides | src/components/historical-components/solar-system-plot.tsx:67-78 | every recorded side is +1 or -1 |
| SolarSystemPlot.SidesCover | src/components/historical-components/solar-system-plot.tsx:67-78 | every approach of every processed planet has a side |
| SolarSystemPlot.PlotBucketsSound | src/components/historical-components/solar-system-plot.tsx:49-81 | buckets exist exactly for the plotted planets, each sorted by distance and a permutation of that planet's approaches |
| SolarSystemPlot.PlotMaxDistancesSound | src/components/historical-components/solar-system-plot.tsx:64-70 | each plotted planet's distance is the largest of its sorted bucket |
| SolarSystemPlot.PlotSidesSound | src/components/historical-components/solar-system-plot.tsx:64-78 | every plotted approach has a side and every side is +1 or -1 |
| SolarSystemPlot.AssignPlanetSides | src/components/historical-components/solar-system-plot.tsx:72-77 | shuffle then record yields the specified sides of one planet |
| SolarSystemPlot.LayOutPlanets | src/components/historical-components/solar-system-plot.tsx:67-78 | the per-planet loop yields the specified buckets, distances and sides |
| SolarSystemPlot.PlotLayout | src/components/historical-components/solar-system-plot.tsx:49-81 | the `useMemo` yields the plot's specified buckets, distances and sides |
| Sorting.SortBy | src/app/historico/page.tsx:231 | `Array.prototype.sort` with a numeric comparator returns as many elements as it got; SortByCorrect and SortByStable state the rest |
| Sorting.SortByCorrect | src/app/historico/page.tsx:231 | the numeric sort is ordered by key and a permutation of its input |
| Sorting.SortByStable | src/app/historico/page.tsx:231 | elements with equal keys keep their input order |
| Sorting.SortBySorted | src/components/historical-components/solar-system-plot.tsx:68 | a list already in order is returned unchanged |
| Lists.Keep | src/app/historico/page.tsx:166-170 | `filter` keeps only elements of the input that pass, keeps every passing element, and is never longer than the input |
| Lists.KeepCounts | src/app/historico/page.tsx:166-170 | each passing element is kept as many times as it occurs, and a failing one not at all |
| Lists.KeepIsSubsequence | src/app/historico/page.tsx:166-170 | `filter` keeps the input order |
| Lists.KeepKeep | src/components/cosmic-explorer/main-view.tsx:53-58 | chained filters filter by the conjunction |
| Lists.Distinct | src/app/historico/page.tsx:156 | `[...new Set(s)]` holds exactly the elements of s, each once |
| Lists.DistinctFirstAppearance | src/app/historico/page.tsx:156 | and lists them in order of first appearance |
| MainView.FilterObjects | src/components/cosmic-explorer/main-view.tsx:52-59 | never more objects than the catalogue |
| MainView.FilterObjectsCounts | src/components/cosmic-explorer/main-view.tsx:52-59 | a listed object appears as often as in the catalogue, and one that fails a filter not at all |
| MainView.FilterObjectsIff | src/components/cosmic-explorer/main-view.tsx:52-59 | an object is listed iff it is in the catalogue and matches the search, the type and the hazard switch |
| MainView.FilterObjectsIsSubsequence | src/components/cosmic-explorer/main-view.tsx:52-59 | listed objects keep catalogue order |
| MainView.DefaultFiltersShowAll | src/components/cosmic-explorer/main-view.tsx:31-59 | the initial filters list the whole catalogue |
| MainView.HazardSwitchNarrows | src/components/cosmic-explorer/main-view.tsx:58 | turning the switch on never lists more |
| MainView.ObjectTypes | src/components/cosmic-explorer/main-view.tsx:61-63 | the selector starts with 'all' |
| MainView.ObjectTypesOffered | src/components/cosmic-explorer/main-view.tsx:61-63 | a type is offered iff some object has it |
| MainView.ObjectTypesDistinct | src/components/cosmic-explorer/main-view.tsx:61-63 | every entry is offered once |
| MainView.ObjectTypesInFirstAppearanceOrder | src/components/cosmic-explorer/main-view.tsx:61-63 | types follow their first appearance in the catalogue |
| MainView.FindById | src/components/cosmic-explorer/main-view.tsx:41 | none iff no object has the id; otherwise the first object with it |
| MainView.ExplorerView.constructor | src/components/cosmic-explorer/main-view.tsx:31-34 | empty search, 'all', switch off, nothing selected |
| MainView.ExplorerView.SetSearchTerm | src/components/cosmic-explorer/main-view.tsx:82 | only the search term changes |
| MainView.ExplorerView.SetTypeFilter | src/components/cosmic-explorer/main-view.tsx:89 | only the type filter changes |
| MainView.ExplorerView.SetShowHazardous | src/components/cosmic-explorer/main-view.tsx:108 | only the switch changes |
| MainView.ExplorerView.SelectCard | src/components/cosmic-explorer/main-view.tsx:120 | the clicked object is selected and the dialog opens |
| MainView.ExplorerView.OpenChange | src/components/cosmic-explorer/main-view.tsx:65-69 | closing clears the selection; opening keeps it |
| MainView.ExplorerView.Focus | src/components/cosmic-explorer/main-view.tsx:39-50 | a non-empty known id selects its first object; an absent, empty or unknown id changes nothing |
| Strings.ToLower | src/components/cosmic-explorer/main-view.tsx:55 | `toLowerCase` keeps the length; ToLowerLowers states what it changes |
| Strings.ToLowerLowers | src/components/cosmic-explorer/main-view.tsx:55 | no upper-case letter remains, other characters are kept, and lowering is idempotent |
| Strings.ContainsEmptyAndSelf | src/components/cosmic-explorer/main-view.tsx:55 | every string includes '' and itself |
| Strings.FindFrom | src/context/language-context.tsx:47 | the first occurrence at or after a position, or none at all |
| Strings.IndexOf | src/context/language-context.tsx:47 | the search `replace` performs: found iff the pattern occurs, and then at its first occurrence |
| Strings.ReplaceFirst | src/context/language-context.tsx:47 | the text is kept when the pattern does not occur; otherwise its length changes by the value's length less the pattern's |
| Strings.ReplaceFirstReplaces | src/context/language-context.tsx:47 | no occurrence leaves the text unchanged; otherwise the value replaces the first occurrence |
| Strings.Split | src/context/language-context.tsx:37 | at least one piece |
| Strings.SplitPiecesHaveNoSeparator | src/context/language-context.tsx:37 | no piece contains the separator |
| Strings.JoinSplit | src/context/language-context.tsx:37 | joining the pieces gives back the key |
| Strings.SplitJoin | src/context/language-context.tsx:37 | splitting a join of separator-free pieces gives back the pieces |
| FeaturedObjectViewer.NextIndex | src/components/cosmic-explorer/featured-object-viewer.tsx:23 | the next index is a position of the list |
| FeaturedObjectViewer.PreviousIndex | src/components/cosmic-explorer/featured-object-viewer.tsx:28 | the previous index is a position of the list |
| FeaturedObjectViewer.NextWraps | src/components/cosmic-explorer/featured-object-viewer.tsx:23 | next steps forward and wraps from last to first |
| FeaturedObjectViewer.PreviousWraps | src/components/cosmic-explorer/featured-object-viewer.tsx:28 | previous steps back and wraps from first to last |
| FeaturedObjectViewer.NextPreviousInverse | src/components/cosmic-explorer/featured-object-viewer.tsx:21-29 | previous undoes next and next undoes previous |
| FeaturedObjectViewer.AdvanceAdds | src/components/cosmic-explorer/featured-object-viewer.tsx:23 | a presses then b presses equal a + b presses |
| FeaturedObjectViewer.AdvanceWithinTurn | src/components/cosmic-explorer/featured-object-viewer.tsx:23 | before the end, k presses move k places |
| FeaturedObjectViewer.AdvanceToStart | src/components/cosmic-explorer/featured-object-viewer.tsx:23 | n - i presses from i reach the first object |
| FeaturedObjectViewer.FullTurn | src/components/cosmic-explorer/featured-object-viewer.tsx:23 | n presses return to the starting object |
| FeaturedObjectViewer.SlidesMoveTogether | src/components/cosmic-explorer/featured-object-viewer.tsx:33-52 | the outgoing slide leaves opposite to where the incoming one enters |
| FeaturedObjectViewer.Carousel.constructor | src/components/cosmic-explorer/featured-object-viewer.tsx:18-19 | starts at index 0 with no direction |
| FeaturedObjectViewer.Carousel.Current | src/components/cosmic-explorer/featured-object-viewer.tsx:31 | the shown object is one of the list |
| FeaturedObjectViewer.Carousel.Next | src/components/cosmic-explorer/featured-object-viewer.tsx:21-24 | direction +1 and the next index, keeping the index valid |
| FeaturedObjectViewer.Carousel.Previous | src/components/cosmic-explorer/featured-object-viewer.tsx:26-29 | direction -1 and the previous index, keeping the index valid |
| Cuestionario.FixedAnswersAreOptions | src/components/cosmic-explorer/cuestionario.tsx:16-27 | two questions whose correct answers, Jupiter and Mars, are among their options |
| Cuestionario.OptionVariant | src/components/cosmic-explorer/cuestionario.tsx:70 | an option is filled iff it is the selected one |
| Cuestionario.QuizWidget.constructor | src/components/cosmic-explorer/cuestionario.tsx:9-12 | no questions, index 0, no selection, no result |
| Cuestionario.QuizWidget.Start | src/components/cosmic-explorer/cuestionario.tsx:14-31 | loads the two questions and resets index, selection and result |
| Cuestionario.QuizWidget.SelectAnswer | src/components/cosmic-explorer/cuestionario.tsx:33-35 | only the selection changes |
| Cuestionario.QuizWidget.Next | src/components/cosmic-explorer/cuestionario.tsx:37-46 | no selection: nothing; before the last question: advance and clear; on the last: show the result |
| Cuestionario.QuizWidget.Render | src/components/cosmic-explorer/cuestionario.tsx:48-81 | start button iff no questions, result iff finished, else the current question whose button reads submit iff it is the last |
| Cuestionario.PlayThrough | src/components/cosmic-explorer/cuestionario.tsx:14-46 | start, answer, next, answer, next ends on the result screen |
| QuizPage.SetAnswer | src/app/juegos/cuestionario/page.tsx:97-101 | position i holds the answer, every other position reads as before, and the array grows when i is past its end |
| QuizPage.AllAnswered | src/app/juegos/cuestionario/page.tsx:134 | complete means exactly three entries and no null among them; holes left by writes past the end do not count as null |
| QuizPage.AnsweringAllThree | src/app/juegos/cuestionario/page.tsx:134 | a new quiz is not complete, and answering its three questions in any order completes it |
| QuizPage.AnsweringKeepsComplete | src/app/juegos/cuestionario/page.tsx:134 | answering keeps a complete quiz complete |
| QuizPage.Grade | src/app/juegos/cuestionario/page.tsx:105-107 | one verdict per question |
| QuizPage.GradeMatchesCards | src/app/juegos/cuestionario/page.tsx:103-108 | each verdict is the card's correctness: the recorded answer is the correct one |
| QuizPage.NewAnswersGradeWrong | src/app/juegos/cuestionario/page.tsx:116 | an unanswered quiz grades every question wrong |
| QuizPage.OptionColour | src/app/juegos/cuestionario/page.tsx:49-58 | an option is green iff submitted and correct, red iff submitted, wrong and the chosen one |
| QuizPage.ColoursAgreeWithVerdict | src/app/juegos/cuestionario/page.tsx:49-58 | nothing is coloured before submission; after it, green marks exactly the correct answer and some option is red iff a wrong listed option was chosen |
| QuizPage.RequestLanguage | src/app/juegos/cuestionario/page.tsx:123 | 'Spanish' for es, 'English' for en |
| QuizPage.QuizSession.constructor | src/app/juegos/cuestionario/page.tsx:90-94 | no answers, not submitted, category 'Asteroids', no results, not started |
| QuizPage.QuizSession.AnswerChange | src/app/juegos/cuestionario/page.tsx:97-101 | the answers get the new one and nothing else changes |
| QuizPage.QuizSession.CheckAnswers | src/app/juegos/cuestionario/page.tsx:103-113 | without questions nothing changes; otherwise results are the grades and the quiz is submitted |
| QuizPage.QuizSession.StartNewQuiz | src/app/juegos/cuestionario/page.tsx:115-127 | three empty answers, not submitted, no results, and a request for the category in the interface language |
| QuizPage.QuizSession.StartQuiz | src/app/juegos/cuestionario/page.tsx:129-132 | started, then as a new quiz |
| QuizPage.QuizSession.SetCategory | src/app/juegos/cuestionario/page.tsx:149 | only the category changes |
| QuizMinigame.CountCorrect | src/components/cosmic-explorer/quiz-minigame.tsx:15 | at most the total; equal to it iff all are true; 0 iff none is |
| QuizMinigame.CountCorrectAppend | src/components/cosmic-explorer/quiz-minigame.tsx:15 | counts add over concatenation |
| QuizMinigame.Classify | src/components/cosmic-explorer/quiz-minigame.tsx:27-53 | each class with results comes with its own message; the check icon marks perfect and the skull lost |
| QuizMinigame.NoResultsIsBad | src/components/cosmic-explorer/quiz-minigame.tsx:49-53 | no results is 'bad' with the no-results message or its fallback |
| QuizMinigame.ClassifyIff | src/components/cosmic-explorer/quiz-minigame.tsx:31-48 | perfect iff all correct; good iff some wrong and 2·correct ≥ total; bad iff 0 < 2·correct < total; lost iff none correct |
| QuizMinigame.ExactlyOneOutcome | src/components/cosmic-explorer/quiz-minigame.tsx:31-48 | exactly one of the four conditions holds for any non-empty results |
| QuizMinigame.ClassifyMonotone | src/components/cosmic-explorer/quiz-minigame.tsx:31-48 | more correct answers never give a worse class |
| QuizMinigame.IconColour | src/components/cosmic-explorer/quiz-minigame.tsx:55-60 | each class has its own colour, and each colour its own class |
| QuizMinigame.Meteors | src/components/cosmic-explorer/quiz-minigame.tsx:81-99 | one meteor per result; their positions are stated by MeteorsSpread |
| QuizMinigame.MeteorsSpread | src/components/cosmic-explorer/quiz-minigame.tsx:81-99 | one meteor per result, the first at 20% with no delay, each next 25 points right and one second later |
| LanguageContext.LanguageCode | src/context/language-context.tsx:56 | es-ES for Spanish, en-US for English |
| LanguageContext.Adopt | src/context/language-context.tsx:22-27 | a stored 'es' or 'en' is adopted; anything else keeps the language |
| LanguageContext.StoredLanguageRestored | src/context/language-context.tsx:23-32 | a language set and stored is adopted on the next visit |
| LanguageContext.Walk | src/context/language-context.tsx:40-42 | a walk that reaches a value has found what the table stores under the path |
| LanguageContext.ApplyReplacements | src/context/language-context.tsx:46-48 | replacements whose placeholders do not occur keep the text |
| LanguageContext.Translate | src/context/language-context.tsx:36-54 | the result is either the key or a string the table stores under the key's path, with its placeholders filled |
| LanguageContext.Index | src/context/language-context.tsx:41 | a property access is defined iff the value is an object with that field |
| LanguageContext.T | src/context/language-context.tsx:36-54 | the loop-and-try body of `t` computes the specified translation |
| LanguageContext.WalkSteps | src/context/language-context.tsx:40-42 | one loop step of the walk |
| LanguageContext.WalkStored | src/context/language-context.tsx:40-42 | walking a path that any table stores, among any other entries, reaches the stored value |
| LanguageContext.TranslateFindsString | src/context/language-context.tsx:37-49 | in any table, a string stored under the key's path is returned with its placeholders filled |
| LanguageContext.TranslateNonStringIsKey | src/context/language-context.tsx:43-45 | in any table, a path ending at a non-string returns the key |
| LanguageContext.TranslateMissingIsKey | src/context/language-context.tsx:50-53 | a missing first segment returns the key |
| LanguageContext.OneReplacement | src/context/language-context.tsx:47 | one replacement fills the first occurrence of its placeholder |
| LanguageContext.LanguageProvider.constructor | src/context/language-context.tsx:20 | the language starts as Spanish |
| LanguageContext.LanguageProvider.LoadStored | src/context/language-context.tsx:22-28 | the stored value is adopted as above |
| LanguageContext.LanguageProvider.SetLanguage | src/context/language-context.tsx:30-34 | the language is set and its name returned for storage |
| AsteroidImage.SizeCategoryOf | src/components/explorer-components/asteroid-image.tsx:29-37 | small iff under 0.1 km, medium iff in [0.1, 1), large iff 1 km or more |
| AsteroidImage.SizeCategoryMonotone | src/components/explorer-components/asteroid-image.tsx:29-37 | a larger diameter never gives a smaller category |
| AsteroidImage.EveryCategoryHasImage | src/components/explorer-components/asteroid-image.tsx:9-22 | every category has a picture, each a different file |
| AsteroidImage.PictureFor | src/components/explorer-components/asteroid-image.tsx:44-45 | the lookup succeeds, giving the small file iff under 0.1 km and the large iff 1 km or more |
| TrajectorySimulation.BasePeriod | src/components/cosmic-explorer/trajectory-simulation.tsx:19 | two seconds per year, clamped to [5, 20] |
| TrajectorySimulation.BasePeriodMonotone | src/components/cosmic-explorer/trajectory-simulation.tsx:19 | a longer orbit never animates faster |
| TrajectorySimulation.OrbitalPeriod | src/components/cosmic-explorer/trajectory-simulation.tsx:20 | defined iff the speed is non-zero, and then period × speed = base period |
| TrajectorySimulation.FasterIsShorter | src/components/cosmic-explorer/trajectory-simulation.tsx:20 | a faster positive speed gives a shorter lap |
| TrajectorySimulation.FocusOffset | src/components/cosmic-explorer/trajectory-simulation.tsx:26 | the Sun sits a·\|e\| from the centre |
| TrajectorySimulation.Scale | src/components/cosmic-explorer/trajectory-simulation.tsx:28-32 | in (0, 1], 1 when the drawing fits, and the scaled width always fits half the box |
| TrajectorySimulation.AxisAndThreshold | src/components/cosmic-explorer/trajectory-simulation.tsx:23-32 | a = 126 px, and scaling happens exactly when \|e\| > 1/9 |
| PlanetaryData.AdaptPlanetDataToOrbitalData | src/lib/planetary-data.ts:117-139 | period and mean anomaly read as 0, arc and observations are 0, class PLA/Planet |
| PlanetaryData.AdaptKeepsElements | src/lib/planetary-data.ts:117-119 | the five orbital elements are copied unchanged |
| PlanetaryData.PlanetsInOrder | src/lib/planetary-data.ts:26-115 | eight planets, Mercury to Neptune, in order |
| PlanetaryData.PlanetEccentricitiesElliptic | src/lib/planetary-data.ts:26-115 | every eccentricity reads as a value in [0, 1) |
| Decimal.Parse | src/app/historico/page.tsx:180-181 | `parseFloat` on the decimal subset yields a number only when some digit is present |
| Decimal.ParseNatDigits | src/app/historico/page.tsx:180-181 | the digits of any whole number, with or without a minus sign, read back as that number |
| Decimal.ZeroPointBelowOne | src/lib/planetary-data.ts:26-115 | a '0.' followed by digits reads as a value in [0, 1) |
| OrbitalDataPresets.AmorReads | src/lib/orbital-data-presets.ts:30-42 | the Amor strings read as a = 1.2, e = 0.15, q = 1.02, Q = 1.38, period 450, mean anomaly 0 |
| OrbitalDataPresets.ApolloReads | src/lib/orbital-data-presets.ts:43-55 | the Apollo strings read as 1.5, 0.5, 0.75, 2.25, 680, 0 |
| OrbitalDataPresets.AtenReads | src/lib/orbital-data-presets.ts:56-68 | the Aten strings read as 0.9, 0.2, 0.72, 1.08, 310, 0 |
| OrbitalDataPresets.AtiraReads | src/lib/orbital-data-presets.ts:69-81 | the Atira strings read as 0.8, 0.1, 0.72, 0.88, 255, 0 |
| OrbitalDataPresets.PresetApsidesConsistent | src/lib/orbital-data-presets.ts:29-82 | every preset has q = a(1 - e) and Q = a(1 + e) |
| OrbitalDataPresets.PresetsAreClosedOrbits | src/lib/orbital-data-presets.ts:5-82 | every preset is elliptical with a positive period, mean anomaly 0 and the common GEN class |
| OrbitalDataPresets.PresetsMatchTheirClass | src/lib/orbital-data-presets.ts:29-82 | each preset meets its own class's thresholds (Amor q > 1.017; Apollo a > 1, q < 1.017; Aten a < 1, Q > 0.983; Atira Q < 0.983) and no other class's |

## Left out

- **Orbit calculation.** `src/lib/orbit-calculator.ts` is not part of this model: Kepler's equation, trigonometry, the THREE.js vectors.
- **Trigonometry.** Also left out are `getPosition`, the planet angle and the `Math.sin` inside `pseudoRandom`.
  - `pseudoRandom` is a parameter `noise: int -> real`, and its fractional part is modelled exactly.
  - The semi-minor axis `b`, which needs `Math.sqrt`, is not modelled.
  - So the only angle that is modelled is the fraction of pi that the distance angle spans.
- **I/O.** `fetch`, the JSON parse of the feed, `localStorage` and `document.documentElement.lang`, and router calls are all outside the model.
  - The stored language is a parameter of `LoadStored`, and `SetLanguage` returns the value to store.
- **Dates.** `Date.getFullYear` is outside the model; each approach carries its year as an integer.
- **Timing and animation.** The `requestAnimationFrame` clock, the scroll `setTimeout`, the framer-motion transitions and the CSS keyframes are outside the model.
- **Generated questions.** The question-generating server action and the AI flows are outside the model. The quiz page returns the request it would send, and receives the questions as a parameter.
- **`parseFloat`.** Only the decimal subset the tables use is modelled: optional minus, digits, one point. Anything else reads as NaN, where JavaScript would read a leading number.
- **Distance strings of the feed.** The approaches carry their miss distances as numbers already read. The source parses the distance strings with `parseFloat` inside the distance sort (`src/app/historico/page.tsx:180-181`) and the plot (`src/components/historical-components/solar-system-plot.tsx:68-69`, `115`). The model assumes those strings parse, so a NaN distance, and the NaN a comparator then returns, is not modelled.
- **Strings.**
  - `toLowerCase` lowers ASCII letters only.
  - `$` patterns in `replace` values are not interpreted.
- **Translation tables.** The locale JSON tables are parameters of `t`, not their literal contents. Property access on a string or a number yields `undefined`, so JavaScript's indexable string characters and prototype properties are not modelled.
- **Replacement order.** Replacements are a sequence in the order `Object.entries` yields them; the integer-like key ordering of JavaScript objects is not modelled.
- **Object types.** `SpaceObject.type` and the type selector's value are datatypes rather than strings, and 'all' is its own constructor.
- **HistoricalPage.HistoricalView.Load**: does not state that every ingested approach is then displayed, because that statement on the method is too expensive for the solver. The lemma `HistoricalPage.LoadedShowsAll` states it about the state Load establishes.
- **FeaturedObjectViewer.Carousel.constructor**: requires a non-empty list, because the component reads `objects[0].id` while rendering and would throw on an empty one.
- **QuizMinigame.Meteors**: its own contract states only one meteor per result; their positions and delays are stated by `QuizMinigame.MeteorsSpread`.
- **Unmodelled solar-plot parts.** The axis range of the solar plot's angles is not modelled, and neither is the fact that one planet's sides cannot overwrite another planet's: epochs are distinct per planet, but not proved so across planets.
- **Presentation.** Pure presentation components and the record shapes of `src/lib/types.ts` carry no logic and are not modelled.
