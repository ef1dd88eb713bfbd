# Pitch analytics core, modelled in Dafny

This project models the in-memory logic of a baseball pitch-analytics web
app written in TypeScript and Next.js. Between its backend calls and its
charts, the app does the following:

- normalises loosely typed uploaded rows into pitch records;
- keeps the analysis page's selection state: three tabs, one "individual"
  player, or up to five players to compare;
- filters pitch data by date range and player;
- keeps an editable list of rows on the "whole" tab;
- builds the comparison bar and radar series, the statistics table and the
  individual charts;
- pads uploaded rows to the union of their keys on the raw data table;
- filters the roster on the home page and summarises each player's speeds;
- formats dates.

The modules follow the source files:

| module | models |
|---|---|
| `DataHelpers` | `src/app/analysis/utils/dataHelpers.ts` |
| `Analysis` | `src/app/analysis/page.tsx` |
| `FilterSection` | `src/app/analysis/components/FilterSection.tsx` |
| `Whole` | `src/app/analysis/components/Whole.tsx` |
| `ComparisonGraph` | `src/app/analysis/components/ComparisonGraph.tsx` |
| `IndividualAnalysis` | `src/app/analysis/components/IndividualAnalysis.tsx` |
| `DataTable` | `src/app/data-table/page.tsx` |
| `Home` | `src/app/home/page.tsx` |
| `DateFormatter` | `src/utils/dateFormatter.ts` |

Shared modules:

- `Records`: the record shapes of `src/app/analysis/types.ts`.
- `PitchStats`: the means, maxima and strike rates that both analysis views
  compute.
- `Text`: JavaScript's `parseInt(…, 10)`, `trim`, `split`, `join`,
  `padStart`, `includes` and ASCII `toLowerCase` on `seq<char>`.
- `Seqs`: filter, subsequence and first-occurrence de-duplication.
- `Options`: the option type.

State the source keeps in React components becomes classes:

- `Analysis.AnalysisPage`, with a `Refresh` method for the filter effect,
  run at the end of every handler;
- `FilterSection.Dropdown`;
- `Whole.WholeEditor`;
- `Home.HomePage`.

Loops that fill objects in place become methods with loop invariants, proved
against specification functions. These are the chart points of the
comparison graph, the padded rows of the data table and the narrowing
filters. Everything else is functions with lemmas.

Dates are integer day numbers. Browser date parsing is a function parameter
(`DayParser`, `StampDay`). So is `parseFloat` (`FloatParser`, with `None`
for `NaN`). Metric values are exact `real`s without rounding.

## Model

| member | source | states |
|---|---|---|
| Records.FindPlayer | src/app/analysis/components/FilterSection.tsx:73 | `find` returns a player with the wanted id, the first such one in the list; it returns nothing exactly when no player has that id |
| Records.NameOr | src/app/analysis/components/Whole.tsx:64 | `player?.name \|\| fallback`: the name of a found player with a non-empty name, otherwise the fallback |
| DataHelpers.SafeToString | src/app/analysis/utils/dataHelpers.ts:23-26 | `null` and `undefined` become the empty string; stored text is returned as it is |
| DataHelpers.TextOr | src/app/analysis/utils/dataHelpers.ts:39-51 | `value \|\| fallback`: a falsy value (`undefined`, `null`, "") gives the fallback, non-empty text is kept; a non-empty fallback makes the result non-empty |
| DataHelpers.TextFieldFallbacks | src/app/analysis/utils/dataHelpers.ts:39-51 | the normalised id, date and absorption are the raw text when it is non-empty and otherwise `unknown-id`, `unknown-date` and `unknown` |
| DataHelpers.LiteralLookup | src/app/analysis/utils/dataHelpers.ts:18 | indexing an object literal gives its own entry for a key it has, `undefined` for a key neither it nor `Object.prototype` has |
| DataHelpers.ConvertSpinDirectionAsWritten | src/app/analysis/utils/dataHelpers.ts:3-19 | as written, every label that is not an `Object.prototype` member comes back unchanged |
| DataHelpers.ConvertSpinDirectionAsWrittenReturnsFunction | src/app/analysis/utils/dataHelpers.ts:18 | as written, the label "toString" yields the inherited function, not a string |
| DataHelpers.ConvertSpinDirection | src/app/analysis/utils/dataHelpers.ts:3-19 | the intended conversion is the identity on every label |
| DataHelpers.ConvertSpinDirectionAgreesOffPrototype | src/app/analysis/utils/dataHelpers.ts:3-19 | the as-written and corrected conversions agree on every label that is not an `Object.prototype` member |
| DataHelpers.SpinDirectionField | src/app/analysis/utils/dataHelpers.ts:46 | the spin direction is present exactly when the raw value is text, and is that text; this is the corrected conversion, and for "toString" and the other `Object.prototype` names the code as written yields the inherited member instead (see Findings) |
| DataHelpers.StrikeField | src/app/analysis/utils/dataHelpers.ts:49 | the strike flag is 0 or 1, and it is 1 exactly when the raw strike column holds "はい" |
| DataHelpers.MapRawDataToPlayerData | src/app/analysis/utils/dataHelpers.ts:21-53 | the normaliser is total; id, date and absorption are never empty; strike is in {0,1} and follows the token; the spin direction is the raw text (the corrected conversion; not the as-written result for `Object.prototype` names such as "toString") |
| DataHelpers.SpeedDiagnostics | src/app/analysis/utils/dataHelpers.ts:28-42 | the speed is the parsed value, or 0 exactly when parsing fails, and that failure is reported with the raw value |
| DataHelpers.SpinDiagnostics | src/app/analysis/utils/dataHelpers.ts:29-43 | the spin is the `parseInt` value, or 0 exactly when it fails; the failure is reported; at most two diagnostics in all |
| DataHelpers.SpinIsIntegerPrefix | src/app/analysis/utils/dataHelpers.ts:43 | for SPIN text made of the digits of n and then a non-digit tail, the spin is n |
| DataHelpers.AbsentFloatFieldIsZero | src/app/analysis/utils/dataHelpers.ts:44-50 | a float column with no value gives 0 |
| DataHelpers.AbsentIntFieldIsZero | src/app/analysis/utils/dataHelpers.ts:43-44 | an integer column with no value gives 0 |
| DataHelpers.AbsentSpinEffIsZero | src/app/analysis/utils/dataHelpers.ts:45 | a spin efficiency with no value gives 0 |
| DataHelpers.AbsentNumericFieldsAreZero | src/app/analysis/utils/dataHelpers.ts:42-50 | a row with no numeric values normalises every numeric field to 0 |
| DataHelpers.SpinEffIgnoresPercent | src/app/analysis/utils/dataHelpers.ts:45 | a trailing "%" on the spin efficiency does not change the value |
| DataHelpers.NormaliserLocality | src/app/analysis/utils/dataHelpers.ts:38-52 | each output field depends only on its own input key |
| Analysis.VisibleIsSubsequence | src/app/analysis/page.tsx:75-93 | the filtered data is an order-preserving subsequence of all data; a record is in it exactly when it passes the period and player filters |
| Analysis.DateRule | src/app/analysis/page.tsx:79-84 | the date filter applies only when `showAllPeriod` is off and both dates are set, with both bounds inclusive |
| Analysis.IndividualRule | src/app/analysis/page.tsx:87-88 | on the individual tab with a selected player, exactly that player's records remain |
| Analysis.ComparisonRule | src/app/analysis/page.tsx:89-90 | on the comparison tab with a non-empty selection, exactly the records of selected ids remain |
| Analysis.NoPlayerRule | src/app/analysis/page.tsx:87-91 | in every other case there is no player filter |
| Analysis.AnalysisPage.constructor | src/app/analysis/page.tsx:20-28 | the initial state: whole tab, all periods, no dates, no selections, no data |
| Analysis.AnalysisPage.Refresh | src/app/analysis/page.tsx:75-94 | narrowing first by date and then by player gives exactly the filtered data |
| Analysis.AnalysisPage.HandlePlayerSelect | src/app/analysis/page.tsx:96-99 | the single selection becomes the id and the multi-selection empties; nothing else changes; the invariant holds |
| Analysis.AnalysisPage.HandlePlayersSelect | src/app/analysis/page.tsx:101-104 | the multi-selection keeps the first five ids in order and clears the single selection |
| Analysis.AnalysisPage.HandleTabChange | src/app/analysis/page.tsx:106-113 | going to "individual" clears the multi-selection; any other tab clears the single selection |
| Analysis.AnalysisPage.SetStartDate | src/app/analysis/page.tsx:155 | only the start date changes, and the data is re-filtered |
| Analysis.AnalysisPage.SetEndDate | src/app/analysis/page.tsx:156 | only the end date changes, and the data is re-filtered |
| Analysis.AnalysisPage.SetShowAllPeriod | src/app/analysis/page.tsx:157 | only the all-period switch changes, and the data is re-filtered |
| Analysis.AnalysisPage.Load | src/app/analysis/page.tsx:40-65 | the roster and the data are stored, the selections are kept, and the data is re-filtered |
| FilterSection.IndividualClickSelects | src/app/analysis/components/FilterSection.tsx:54-56 | in individual mode a click selects that one player and is never disabled |
| FilterSection.DeselectRemovesAll | src/app/analysis/components/FilterSection.tsx:58-59 | clicking a selected id removes every occurrence and keeps the others in order |
| FilterSection.DisabledIffIgnored | src/app/analysis/components/FilterSection.tsx:171-173 | a player is disabled exactly when its click is ignored; below five, an unselected id is appended at the end |
| FilterSection.ClickKeepsSelectionValid | src/app/analysis/components/FilterSection.tsx:58-64 | a selection of at most five distinct ids stays at most five and distinct after any click |
| FilterSection.ClickWithinLimit | src/app/analysis/components/FilterSection.tsx:60-64 | no click takes the selection above five |
| FilterSection.ToggleRoundTrip | src/app/analysis/components/FilterSection.tsx:58-63 | adding an unselected id and clicking it again restores the selection |
| FilterSection.NamesOf | src/app/analysis/components/FilterSection.tsx:79-82 | the names of the selected ids: at most one per id, never empty |
| FilterSection.NamesOfConcat | src/app/analysis/components/FilterSection.tsx:79-81 | the names of two selections in a row are the names of each, in selection order |
| FilterSection.NamesOfAllKnown | src/app/analysis/components/FilterSection.tsx:79-81 | when every id names a known player with a name, the names are one per id, in order |
| FilterSection.UnknownIdNoName | src/app/analysis/components/FilterSection.tsx:80-81 | an id no player has contributes no name |
| FilterSection.SelectedPlayerNames | src/app/analysis/components/FilterSection.tsx:68-84 | individual: the found player's name or a placeholder; comparison: the names joined by ", ", or a placeholder exactly when nothing is selected |
| FilterSection.Dropdown.constructor | src/app/analysis/components/FilterSection.tsx:39 | the dropdown starts closed |
| FilterSection.Dropdown.ToggleDropdown | src/app/analysis/components/FilterSection.tsx:137 | the dropdown flips between open and closed |
| FilterSection.Dropdown.HandlePlayerCheckboxChange | src/app/analysis/components/FilterSection.tsx:53-66 | the click's outcome is applied through the page's handlers, closing the dropdown in individual mode; nothing else on the page changes |
| FilterSection.Dropdown.Clear | src/app/analysis/components/FilterSection.tsx:160 | both selections end empty; the tab, the loaded data, the roster, the dates and the period switch stay as they were, and the page stays valid (the shown data is re-derived from the new selection) |
| Whole.AsWholeRecord | src/app/analysis/components/Whole.tsx:10-23 | a pitch record read as a whole-tab record keeps its fields; the columns it lacks are missing |
| Whole.OptionalText | src/app/analysis/components/Whole.tsx:66-73 | a missing number is shown as "", a present one by the number formatter |
| Whole.ExistingRows | src/app/analysis/components/Whole.tsx:58-79 | one row per record, in order, marked existing and not new, with id "existing-data-" followed by the index |
| Whole.ExistingRowCells | src/app/analysis/components/Whole.tsx:59-78 | each converted row carries its record's id, fallback name and fields, with "" for missing ones |
| Whole.PitchRowsHaveBlankMovement | src/app/analysis/components/Whole.tsx:70-73 | rows converted from pitch records have blank spin-direction, movement and rating cells |
| Whole.ExistingRowIdsDistinct | src/app/analysis/components/Whole.tsx:62 | the converted rows' ids are pairwise distinct |
| Whole.SetField | src/app/analysis/components/Whole.tsx:133-137 | setting one field changes that field to the value and leaves the others and both flags alone |
| Whole.RowExtensionality | src/app/analysis/components/Whole.tsx:31-46 | two rows that agree on every field and flag are the same row |
| Whole.SetFieldOwnValue | src/app/analysis/components/Whole.tsx:133-137 | writing a field's own value back changes nothing |
| Whole.FilteredRowsSpec | src/app/analysis/components/Whole.tsx:147-151 | a blank search keeps every row; otherwise exactly the rows whose lower-cased name contains the lower-cased search, in order |
| Whole.DisplayRowsIsPermutation | src/app/analysis/components/Whole.tsx:154-157 | the displayed rows are the filtered rows, rearranged |
| Whole.DisplayRowsIsStablePartition | src/app/analysis/components/Whole.tsx:154-157 | all non-existing rows come first, then all existing ones; the first group and the second group of the displayed rows are each a subsequence of the input, so each keeps its original order |
| Whole.WholeEditor.constructor | src/app/analysis/components/Whole.tsx:54-55 | no rows and an empty search |
| Whole.WholeEditor.LoadExisting | src/app/analysis/components/Whole.tsx:58-79 | the rows become the converted records |
| Whole.WholeEditor.AddNewRow | src/app/analysis/components/Whole.tsx:86-104 | exactly one blank row marked new is prepended; the tail is the old list |
| Whole.WholeEditor.AddExistingPlayerRow | src/app/analysis/components/Whole.tsx:106-127 | an unknown id changes nothing; otherwise a row with that player's id and name, both flags false, is prepended |
| Whole.WholeEditor.RemoveRow | src/app/analysis/components/Whole.tsx:129-131 | every row with the id goes, and the rest keep their order |
| Whole.WholeEditor.UpdateRow | src/app/analysis/components/Whole.tsx:133-137 | only the named field of rows with the id changes; the length and all other rows and fields stay |
| Whole.WholeEditor.SetSearchName | src/app/analysis/components/Whole.tsx:166 | only the search text changes |
| Whole.WholeEditor.Displayed | src/app/analysis/components/Whole.tsx:147-157 | the displayed rows are a rearrangement of the rows that match the search |
| PitchStats.Max | src/app/analysis/components/ComparisonGraph.tsx:52-54 | `Math.max` of a non-empty list is one of its elements and no smaller than any |
| PitchStats.MeanWithin | src/app/analysis/components/ComparisonGraph.tsx:49-51 | a mean lies between any lower and upper bounds of its terms |
| PitchStats.MeanAtMostMax | src/app/analysis/components/ComparisonGraph.tsx:49-54 | the mean is at most the maximum |
| PitchStats.StrikeCount | src/app/analysis/components/ComparisonGraph.tsx:64-66 | the strikes counted are at most the records |
| PitchStats.StrikeRateIsPercentage | src/app/analysis/components/ComparisonGraph.tsx:64-66 | the strike rate lies in [0, 100]; it is 0 with no strikes and 100 with only strikes |
| PitchStats.AllStrikes | src/app/analysis/components/IndividualAnalysis.tsx:47-51 | a list of strikes only has rate 100 |
| ComparisonGraph.Ceiling | src/app/analysis/components/ComparisonGraph.tsx:32-39 | every fixed ceiling is at least 100 |
| ComparisonGraph.FirstFive | src/app/analysis/components/ComparisonGraph.tsx:44 | at most five ids, a prefix of the selection, and the whole selection when it has five or fewer |
| ComparisonGraph.MaxOrOne | src/app/analysis/components/ComparisonGraph.tsx:78-83 | `Math.max(...xs, 1)` is at least 1 and every term, and is 1 or one of the terms |
| ComparisonGraph.RadarScales | src/app/analysis/components/ComparisonGraph.tsx:78-83 | the radar scales are all at least 1, so every division is defined |
| ComparisonGraph.FillDataPoint | src/app/analysis/components/ComparisonGraph.tsx:44-71 | filling one data point in place yields exactly the values of that chart point |
| ComparisonGraph.BuildSeries | src/app/analysis/components/ComparisonGraph.tsx:44-71 | one point is built per metric, in order |
| ComparisonGraph.PrepareHorizontalBarData | src/app/analysis/components/ComparisonGraph.tsx:31-75 | the bar data is the bar series of the six metrics |
| ComparisonGraph.PrepareRadarData | src/app/analysis/components/ComparisonGraph.tsx:77-123 | the radar data is the radar series of the five metrics, scaled by the cohort maxima |
| ComparisonGraph.BarSeriesShape | src/app/analysis/components/ComparisonGraph.tsx:32-41 | exactly six bar points in the fixed order, with ceilings 200, 200, 3000, 3000, 100, 100; five radar points |
| ComparisonGraph.PointKeys | src/app/analysis/components/ComparisonGraph.tsx:44-46 | an id is a key exactly when it is among the first five selected and has records; a player without data is absent, not zero |
| ComparisonGraph.BarValues | src/app/analysis/components/ComparisonGraph.tsx:48-69 | the strike bar lies in [0, 100], and the average-speed bar never exceeds the maximum-speed bar |
| ComparisonGraph.ScalesBoundCohort | src/app/analysis/components/ComparisonGraph.tsx:78-83 | each scale bounds the corresponding value of every selected player's record |
| ComparisonGraph.ScaledMeanAtMostHundred | src/app/analysis/components/ComparisonGraph.tsx:100-109 | a mean of terms within the scale maps to at most 100 |
| ComparisonGraph.PlayerWithinScales | src/app/analysis/components/ComparisonGraph.tsx:78-83 | a selected player's own records lie within the cohort scales |
| ComparisonGraph.RadarScaledAtMostHundred | src/app/analysis/components/ComparisonGraph.tsx:100-109 | the scaled radar values for speed, spin and true spin are at most 100 |
| ComparisonGraph.RadarUnscaledMetrics | src/app/analysis/components/ComparisonGraph.tsx:110-114 | on the radar, spin efficiency and strike rate are not divided by a cohort maximum |
| ComparisonGraph.TableRows | src/app/analysis/components/ComparisonGraph.tsx:264-267 | table rows exist only for selected players with at least one record |
| ComparisonGraph.TableRowStats | src/app/analysis/components/ComparisonGraph.tsx:269-279 | each row holds the statistics of its own player's records |
| ComparisonGraph.StatsRowConsistent | src/app/analysis/components/ComparisonGraph.tsx:269-279 | a row's maxima are at least its averages; its strike rate is a percentage; an unknown player is named "Unknown" |
| ComparisonGraph.TableRowsComplete | src/app/analysis/components/ComparisonGraph.tsx:264-267 | every selected player with records has a row |
| ComparisonGraph.Render | src/app/analysis/components/ComparisonGraph.tsx:23-29 | an empty selection shows only the no-player message; otherwise both series and the table |
| IndividualAnalysis.Insert | src/app/analysis/components/IndividualAnalysis.tsx:34 | inserting one record makes the list one longer |
| IndividualAnalysis.SortByDate | src/app/analysis/components/IndividualAnalysis.tsx:34 | sorting keeps the length |
| IndividualAnalysis.InsertPermutation | src/app/analysis/components/IndividualAnalysis.tsx:34 | inserting adds exactly that record to the multiset |
| IndividualAnalysis.SortIsPermutation | src/app/analysis/components/IndividualAnalysis.tsx:34 | sorting is a permutation |
| IndividualAnalysis.AppendSorted | src/app/analysis/components/IndividualAnalysis.tsx:34 | appending a record no earlier than all others keeps the list sorted |
| IndividualAnalysis.InsertSorted | src/app/analysis/components/IndividualAnalysis.tsx:34 | inserting into a sorted list keeps it sorted |
| IndividualAnalysis.SortIsSorted | src/app/analysis/components/IndividualAnalysis.tsx:34 | with every date valid, the sorted list has non-decreasing dates |
| IndividualAnalysis.FilteredDataSpec | src/app/analysis/components/IndividualAnalysis.tsx:32-34 | exactly the selected player's records, rearranged, and date-ordered when that player's dates are valid (other players' dates do not matter) |
| IndividualAnalysis.LatestIsMaximal | src/app/analysis/components/IndividualAnalysis.tsx:55 | the date shown as latest, the last sorted record's, is a maximal date |
| IndividualAnalysis.ShowNumber | src/app/analysis/components/IndividualAnalysis.tsx:83 | a number in a template is never empty (`NaN` included) |
| IndividualAnalysis.SpeedChartData | src/app/analysis/components/IndividualAnalysis.tsx:67-86 | one point per record in order, carrying that record's speed |
| IndividualAnalysis.SpinChartData | src/app/analysis/components/IndividualAnalysis.tsx:88-107 | one point per record in order, carrying that record's spin |
| IndividualAnalysis.MonthLabelRule | src/app/analysis/components/IndividualAnalysis.tsx:73-79 | the month shows at index 0 and wherever it differs from the previous month, otherwise ""; both charts carry the same labels |
| IndividualAnalysis.NoSlashInIntToString | src/app/analysis/components/IndividualAnalysis.tsx:83 | a written number never contains "/" |
| IndividualAnalysis.SlashDateFields | src/app/analysis/components/IndividualAnalysis.tsx:68-83 | for "year/month/day" the labels read back the month and the day, and the display date is "month/day" |
| IndividualAnalysis.Render | src/app/analysis/components/IndividualAnalysis.tsx:23-55 | no player gives the no-player view, a player without records gives no-data; otherwise the title, averages, strike rate, latest date and charts of the sorted records |
| IndividualAnalysis.NoRecordsIffEmpty | src/app/analysis/components/IndividualAnalysis.tsx:36-43 | the filtered data is empty exactly when no record has the player's id |
| IndividualAnalysis.ChartsFigures | src/app/analysis/components/IndividualAnalysis.tsx:46-52 | on screen, the strike rate lies in [0, 100] and the average speed is at most the fastest pitch |
| DataTable.Keys | src/app/data-table/page.tsx:53 | a row's keys, one per entry, in order |
| DataTable.Lookup | src/app/data-table/page.tsx:59-60 | `row[key]` is undefined exactly when the key is neither one of the row's keys nor an `Object.prototype` member name; an absent key with such a name gives the inherited member |
| DataTable.LookupAt | src/app/data-table/page.tsx:59-60 | when a row's keys are distinct, the value under the i-th key is the i-th value |
| DataTable.AllKeysMembership | src/app/data-table/page.tsx:53 | a key is in the flattened key list exactly when some row has it |
| DataTable.HeadersSpec | src/app/data-table/page.tsx:51-55 | no rows give no headers; headers have no duplicates; every row key is a header and every header is some row's key |
| DataTable.HeadersFirstOccurrenceOrder | src/app/data-table/page.tsx:52-54 | the headers list keys in order of first appearance |
| DataTable.CellOrEmpty | src/app/data-table/page.tsx:60 | `?? ""` never leaves a null |
| DataTable.NormalizedRow | src/app/data-table/page.tsx:57-63 | a padded row has exactly the headers as its keys |
| DataTable.NormalizedRowAt | src/app/data-table/page.tsx:58-61 | under each header the padded row holds the row's value (own or inherited from `Object.prototype`), or "" |
| DataTable.NormalizedRowSpec | src/app/data-table/page.tsx:57-63 | existing values are copied; an absent key named like an `Object.prototype` member keeps the inherited member; other missing values and null values become "" |
| DataTable.NormalizeRow | src/app/data-table/page.tsx:58-61 | filling the row key by key yields the padded row |
| DataTable.NormalizeData | src/app/data-table/page.tsx:57-63 | one padded row per uploaded row, in order, against the common headers |
| DataTable.Render | src/app/data-table/page.tsx:80 | no rows show the no-data view; otherwise the record count equals the row count and every row's keys are the headers |
| Home.FindFieldValue | src/app/home/page.tsx:67-79 | with the helper of the player page (src/app/player/[id]/page.tsx lines 90-97, see Left out), no value is found exactly when no candidate key holds a value other than `undefined`, `null` and ""; a found value is never "" |
| Home.FindFieldValueFirst | src/app/home/page.tsx:67-79 | a found value is the text under one of the candidate keys, and no earlier candidate holds a usable value |
| Home.RecordSpeeds | src/app/home/page.tsx:66-81 | one speed per record, in order |
| Home.ExtractSpeedsSpec | src/app/home/page.tsx:66-82 | the kept speeds are the strictly positive ones, in order, and no more than the records |
| Home.MissingSpeedIsZero | src/app/home/page.tsx:80-81 | a record whose candidate speed keys are all absent, `null` or "" counts as 0 and is dropped |
| Home.SpeedIgnoresDecoration | src/app/home/page.tsx:80 | characters other than digits, "." and "-" do not affect the speed |
| Home.WithSpeedSummary | src/app/home/page.tsx:84-87 | with speeds, `maxSpeed` is one of them and at least all, `recentSpeed` is the last; without, nothing is set; other fields stay |
| Home.SpeedSummaryOrdered | src/app/home/page.tsx:84-87 | the recent speed is positive and at most the maximum |
| Home.Names | src/app/home/page.tsx:97 | one name per player, in order |
| Home.Grades | src/app/home/page.tsx:98 | one grade per player, in order |
| Home.UniqueNamesSpec | src/app/home/page.tsx:97 | the unique names have no duplicates, cover exactly the players' names, and keep first-occurrence order |
| Home.UniqueGradesSpec | src/app/home/page.tsx:98 | the unique grades have no duplicates, cover exactly the players' grades, and keep first-occurrence order |
| Home.FilterPlayersSpec | src/app/home/page.tsx:112-134 | the result is an order-preserving subsequence; a player is kept exactly when it passes the name, grade and date criteria |
| Home.NoCriteriaKeepsAll | src/app/home/page.tsx:115-123 | with no criteria every player is kept |
| Home.DateExcludesUndated | src/app/home/page.tsx:123-132 | with a date chosen, players without a timestamp are excluded |
| Home.LowerCharIdempotent | src/app/home/page.tsx:116 | lower-casing twice is lower-casing once |
| Home.FilterIgnoresSearchCase | src/app/home/page.tsx:115-117 | the name filter ignores the case of the search text |
| Home.SuggestionsSpec | src/app/home/page.tsx:137-148 | empty input gives no suggestions; otherwise exactly the names containing the input, ignoring case, in order, without new duplicates |
| Home.ThrowingHandLabel | src/app/home/page.tsx:164-168 | "right" and "left" map to their labels; any other text is returned unchanged |
| Home.ThrowingHandLabelInjective | src/app/home/page.tsx:164-168 | different hands get different labels |
| Home.FavoritePitchLabelAsWritten | src/app/home/page.tsx:171-182 | as written, every pitch that is not an `Object.prototype` member gets a text label |
| Home.FavoritePitchLabelAsWrittenReturnsFunction | src/app/home/page.tsx:181 | as written, the pitch "constructor" yields the inherited function, not a label |
| Home.FavoritePitchLabel | src/app/home/page.tsx:171-182 | the seven pitch keys map to their translated labels; any other text is returned unchanged |
| Home.FavoritePitchLabelAgreesOffPrototype | src/app/home/page.tsx:171-182 | the as-written and corrected labels agree off the prototype names |
| Home.NarrowPlayers | src/app/home/page.tsx:112-135 | narrowing by name, then grade, then date yields exactly the filtered players |
| Home.SummariseSpeeds | src/app/home/page.tsx:84-87 | updating the player's speed fields yields the summarised player |
| Home.FetchAll | src/app/home/page.tsx:66-98 | one summarised player per fetched player, in order |
| Home.HomePage.constructor | src/app/home/page.tsx:27-34 | nothing loaded, no filters, no suggestions |
| Home.HomePage.Load | src/app/home/page.tsx:84-103 | the summarised players are stored and shown unfiltered, with their unique names and grades |
| Home.HomePage.HandleFilter | src/app/home/page.tsx:112-135 | the shown players become the filtered players |
| Home.HomePage.HandleNameInputChange | src/app/home/page.tsx:137-148 | the search text becomes the input and the suggestions those of the input |
| Home.HomePage.HandleNameSelect | src/app/home/page.tsx:150-153 | choosing a suggestion sets the search text and clears the suggestions |
| Home.HomePage.SetSearchGrade | src/app/home/page.tsx:221 | only the grade criterion changes |
| Home.HomePage.SetSelectedDate | src/app/home/page.tsx:194 | only the date criterion changes |
| DateFormatter.FormatFirebaseDate | src/utils/dateFormatter.ts:6-19 | a missing or empty timestamp yields "Unknown date"; a string goes to the string formatter; a stamp goes to the millisecond formatter |
| DateFormatter.ShortNumber | src/utils/dateFormatter.ts:26-27 | numbers below 100 have at most two digits |
| DateFormatter.FieldsAreTwoDigits | src/utils/dateFormatter.ts:26-27 | MM and DD are exactly two digits for months 1 to 12 and days 1 to 31, padded with "0" on the left |
| DateFormatter.PaddedFieldValue | src/utils/dateFormatter.ts:26-27 | a padded field is digits and reads back as its number |
| DateFormatter.FormatReadsBack | src/utils/dateFormatter.ts:24-29 | for a non-negative year, the output splits on "-" into three fields that read back as year, month+1 and day |
| DateFormatter.YearIsUnpadded | src/utils/dateFormatter.ts:25-28 | the output starts with the year as written, unpadded and untruncated, then "-"; parsing it gives the year |
| DateFormatter.FormatShape | src/utils/dateFormatter.ts:28 | the output is year, "-", MM, "-", DD |
| DateFormatter.FieldsDashFree | src/utils/dateFormatter.ts:26-27 | MM and DD contain no "-" |
| DateFormatter.NegativeYearSplitsInFour | src/utils/dateFormatter.ts:24-29 | a negative year's sign adds an empty leading field when the output is split on "-" |

## Left out

- I/O: fetching from Firestore, authentication, storage, the try/catch around each fetch, and the loading flags. The page loads are modelled as `Load` methods that take the fetched values as parameters.
- Rendering: JSX, recharts, CSS, hover state, translations (`t` becomes a `Translated(key)` value), and the click-outside listener of the dropdown.
- Floating point: `toFixed` and `Math.round` of the chart values, the least-squares trend line, axis padding and point alpha. Means and rates are exact reals.
- Dates and locales: `new Date(text)`, `toLocaleDateString`, `toLocaleString` and `getTodayDate`. They become parameters (`DayParser`, `StampDay`, `ofText`, `ofMillis`, `today`). Row ids built from `Date.now()` take the time as a parameter.
- `parseFloat` is an abstract parser parameter. Only `parseInt(…, 10)` is modelled exactly, and for integers of any size, where the source loses precision beyond 2^53.
- `toLowerCase` covers ASCII letters only; other scripts are left unchanged by the model.
- Raw values are text or `null`. Numeric and boolean raw values, which `String(…)` would print first, are not modelled.
- `findFieldValue` has no definition in src/app/home/page.tsx: as written, the call at line 67 throws a `ReferenceError` for every player with records, the `catch` at line 89 swallows it, and no speed summary is ever set. The model gives the page the helper of src/app/player/[id]/page.tsx:90-97 (the first candidate value other than `undefined`, `null` and "") and so models the evidently intended summary.
- `DataTable.NormalizedRow`: a header named `__proto__` is treated as an ordinary key. In JavaScript the assignment `normalizedRow["__proto__"] = …` goes to the prototype setter instead.
- Object key order: a row is a sequence of entries in `Object.keys` order. The reordering of integer-like keys is not modelled, and rows with repeated keys take the first entry.
- `IndividualAnalysis.SortByDate`: the engine's sort is modelled as a stable insertion sort with the source's comparator. With invalid dates that comparator is inconsistent; the model then gives the permutation but not the engine's order.
- `Whole.WholeEditor.UpdateRow` edits the text fields of a row only. The boolean flags are not fields a cell edits.
- `Whole.AsWholeRecord`: the whole tab reads spin-direction, movement and rating fields that pitch records do not have under those names, so those cells are always "".
- The number formatter of the whole tab and the translated "not found" name are parameters.
- The navigation handlers (adding a new player, opening a player page) and the fixed condition options are left out; they only route or render.
- `Analysis.AnalysisPage.Load` receives records already built. The fetch loop that overwrites each record's id and document id with the player's and the document's ids is I/O and not modelled.
- `Home.SummariseSpeeds` updates a copy of the player value; aliasing of the fetched player object is not modelled.

## Findings

| source | as written | input that shows it | evidently intended | confidence | as-written member | corrected member |
|---|---|---|---|---|---|---|
| src/app/analysis/utils/dataHelpers.ts:18 | `table[direction] \|\| direction` also finds members inherited from `Object.prototype` | the direction "toString" returns a function instead of a string | every label maps to itself | not executed | DataHelpers.ConvertSpinDirectionAsWrittenReturnsFunction | DataHelpers.ConvertSpinDirection |
| src/app/home/page.tsx:181 | `pitchMap[pitch] \|\| pitch` also finds members inherited from `Object.prototype` | the pitch "constructor" returns the `Object` function instead of a label | the seven pitch keys get labels, anything else comes back unchanged | not executed | Home.FavoritePitchLabelAsWrittenReturnsFunction | Home.FavoritePitchLabel |
