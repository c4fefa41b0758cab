# Billing visibility dashboard — a Dafny model of its data core

The dashboard shows a customer's billed credits for two meters:
- "Unstructured Data Processed" (indexing, 60 credits per MB);
- "Batch Data Pipeline" (ingestion, 0.002 credits per update).

It shows them for a reporting period, with a list of consumption alerts and a ledger of file events. This project models the data core behind those views and proves what it computes:

- **Chart data.** `DataGenerator` covers:
  - the period configuration;
  - the list of chart dates;
  - the per-date feed, looked up in a fixture map;
  - one bar value per date and meter;
  - the period ranges used to decide which alerts are active;
  - the timestamp parser that batches ingestion events;
  - the shape of the random processing ids.
- **File-details ledger.** `FileDetails` turns one date's or one period's files into the flat table:
  - the files for the period or for the selected date;
  - the pipeline files, stably sorted by (day bucket, minute);
  - grouping into processing batches; a file joins the first batch in its day bucket whose opening time is at most 30 minutes away;
  - one Ingestion row per batch member;
  - a file-name map whose value comes from the last ingestion of each name;
  - one Indexing row per indexing file, which takes the ingestion's id and reason when the name was ingested;
  - a synthesised Indexing row for every ingested name that was never indexed, timed one hour later.

  Each loop of the source is a `method` proved equal to a specification function. `LedgerProperties` proves what the ledger means:
  - its layout and counts;
  - where every id, reason and credit value comes from;
  - the credit balance against the chart's indexing bars;
  - the processing-id shape of every row.
- **Views.**
  - `FlatView`: the row filters, the option lists of the multi-selects, regrouping the table by processing id, the sort-column state and the column comparator.
  - `GroupedView`: the per-meter sections, their totals and the expanded-section set.
  - `AlertsSection`: active alerts, the overall status and mitigation.
  - `MultiSelect`: toggling an option and the closed control's text.
- **Fixtures.**
  - `MockData` holds the fixture feed and alerts, and the file-name hash that picks a connector.
  - `FixtureChecks` proves what the model gives on that data:
    - 5 September: one batch; the indexing reason is replaced by the ingestion reason; 4530 credits.
    - 31 October: batches of 3, 3 and 2.
    - 10 September: two synthesised rows, one of them 984 credits at 12:00.
    - Alert status before and after a mitigation.
- **Shared pieces.**
  - `Types` holds the shared value types.
  - `Text` holds the JavaScript string primitives the code relies on:
    - the regular-expression character classes;
    - decimal conversion;
    - `padStart`, ASCII `toLowerCase` and `includes`;
    - code-unit string order.

Three parts of the ledger are parameters:
- **`parse`:** the timestamp parser. The sort and the batching are proved for any parse function. `FlatTableData` instantiates it with `DataGenerator.ParseTimeForGrouping`.
- **`shift`:** the synthesised-time function. `FlatTableData` instantiates it with `FileDetails.SynthTime`.
- **`ids`:** the id generator, seen as a function from counter values to ids. `IdsFrom` builds it from the random draws, which are themselves a parameter.

Some consequences of the code that the views do not make obvious:
- **The 90-day chart.** The 90-day and custom charts start on 13 August and run to 10 November, past the reference day (1 November 2025); the 24h, 7d and 30d charts end on the reference day (`ChartWindows`, `ChartDatesVersusRange`).
- **Credit parity.** The ledger's credits equal the chart's indexing bars exactly when every ingested name is also indexed (`LedgerCreditsParity`). Otherwise the synthesised rows add credits of their own that no bar shows (`LedgerCredits`). 10 September gets two such rows (`SynthesizedOfSeptember10`), one of them 984 credits (`WednesdaySynthesized`).
- **The Pipeline section.** The grouped view's Pipeline section lists the Unstructured files whenever that key is present, even when that list is empty. An empty list then hides both sections (`PipelineShowsUnstructured`, `EmptyUnstructuredHidesPipeline`).
- **The credits column sort.** Sorting the flat table by credits uses a comparator that is not a consistent order: two rows without credits each compare as "after" the other (`CompareCreditsInconsistent`). The engine's result is therefore a permutation the model does not pin down.
- **The fixture connector spread.** The connector object spread into some fixture entries has keys `type` and `name`, so those entries still lack `connectorType` and `connectorName`, and every view derives their connector from the file-name hash (`SpreadLeavesFallback`).

## Model

| member | source | states |
|---|---|---|
| DataGenerator.ChartWindows | src/utils/dataGenerator.ts:5-13 | the chart length is 1, 7 or 30 days for the short periods and 90 days for 90d, custom or an unknown token; 24h/7d/30d end on 1 November 2025, the others run 13 August to 10 November |
| DataGenerator.IndexingTotal | src/utils/dataGenerator.ts:42-45 | the indexing bar of a date is never negative |
| DataGenerator.IndexingTotalAppend | src/utils/dataGenerator.ts:42-45 | the indexing bar is additive over concatenated file lists |
| DataGenerator.GenerateMockData | src/utils/dataGenerator.ts:4-54 | the dates are the configured number of consecutive days from the start date; each has the fixture's entry or the empty entry; each bar is the indexing or pipeline total of that date's files, and non-negative |
| DataGenerator.PeriodRangeBounds | src/utils/dataGenerator.ts:80-90 | a day is in the period exactly when it lies between the two ends, both included; one day beyond either end is not; custom equals 90d |
| DataGenerator.ShortPeriods | src/utils/dataGenerator.ts:56-90 | 24h is exactly 31 October and 1 November; 7d is exactly 25 October to 1 November |
| DataGenerator.ChartDatesVersusRange | src/utils/dataGenerator.ts:4-25 | every chart date of 24h/7d/30d lies in that period's range, while the last 90d chart date (10 November) does not |
| DataGenerator.RunEnd | src/utils/dataGenerator.ts:102 | a character-class run ends at the end of the string or before a character outside the class |
| DataGenerator.RunEndSpan | src/utils/dataGenerator.ts:102 | every character inside a run is of the run's class |
| DataGenerator.MatchAt | src/utils/dataGenerator.ts:102 | a match at an offset has a word month, a digit day, a digit hour and a digit minute, all non-empty |
| DataGenerator.FindTime | src/utils/dataGenerator.ts:102 | the search fails only when no offset matches, and otherwise returns the match at the leftmost offset that has one |
| DataGenerator.RunOver | src/utils/dataGenerator.ts:102 | a maximal stretch of one class starting at an offset is exactly the run computed there |
| DataGenerator.MatchWellFormed | src/utils/dataGenerator.ts:102 | a timestamp written "W D H:M" matches with exactly the groups W, D, H and M |
| DataGenerator.ParseTimeForGrouping | src/utils/dataGenerator.ts:101-115 | the day bucket is empty exactly when the pattern does not match, and then the key is ("", 0) |
| DataGenerator.ParseWellFormed | src/utils/dataGenerator.ts:101-112 | on "W D H:M" the bucket is W followed by the day without leading zeros, and the minutes are H×60+M (hours and minutes not range-checked) |
| DataGenerator.DayBucketIgnoresLeadingZeros | src/utils/dataGenerator.ts:105-109 | a leading zero on the day does not change the bucket |
| DataGenerator.HexDigit | src/utils/dataGenerator.ts:96 | a nibble prints as one lower-case hexadecimal digit |
| DataGenerator.FillTemplate | src/utils/dataGenerator.ts:93-97 | the filled template has the template's length; every x becomes a hex digit, every y one of 8, 9, a, b, and every other character is kept |
| DataGenerator.GenerateProcessingId | src/utils/dataGenerator.ts:92-99 | whatever the random draws, an id has 36 characters: dashes at 8, 13, 18 and 23, version digit 4 at 14, variant 8/9/a/b at 19, hex digits elsewhere |
| FileDetails.DateEntry | src/components/FileDetails.tsx:47 | a date with no entry in the feed gives the empty entry |
| FileDetails.DateEntryFirst | src/components/FileDetails.tsx:47 | the entry of a date is the one stored under that date |
| FileDetails.PeriodListStep | src/components/FileDetails.tsx:28-37 | each date with the meter key appends its list to the aggregate (creating it if needed); a date without the key leaves it as it was |
| FileDetails.FilesByMeter | src/components/FileDetails.tsx:22-52 | with no selected date, the aggregate over all dates; otherwise the selected date's entry or the empty entry |
| FileDetails.KeyLessTotal | src/components/FileDetails.tsx:63-70 | two different time keys are always ordered one way or the other |
| FileDetails.KeyLeqTransitive | src/components/FileDetails.tsx:63-70 | the comparator's order is transitive |
| FileDetails.InsertByTime | src/components/FileDetails.tsx:63-70 | inserting into a key-sorted list keeps it sorted and adds exactly that file |
| FileDetails.SortByTime | src/components/FileDetails.tsx:63-70 | the sorted pipeline files are a permutation of the input, in (day bucket, minute) order |
| FileDetails.SortByTimeStable | src/components/FileDetails.tsx:63-70 | files with equal keys keep their feed order |
| FileDetails.SortByTimeSortedIdentity | src/components/FileDetails.tsx:63-70 | a list already in key order is returned unchanged |
| FileDetails.FirstFitFrom | src/components/FileDetails.tsx:75-82 | the search returns the first batch the file qualifies for (same bucket, within 30 minutes of the batch's opening), or none when no batch qualifies |
| FileDetails.JoinWellBatched | src/components/FileDetails.tsx:79-93 | joining the first qualifying batch keeps the batch invariant |
| FileDetails.OpenWellBatched | src/components/FileDetails.tsx:84-93 | opening a batch when none qualifies keeps the invariant; the new batch takes the id of counter value "number of batches" |
| FileDetails.PlaceWellBatched | src/components/FileDetails.tsx:72-94 | one placement step keeps the batch invariant |
| FileDetails.GroupWellBatched | src/components/FileDetails.tsx:72-94 | any file list gives batches whose ids follow the counter, each opened by its first member; every member qualifies for its batch and for no earlier one |
| FileDetails.PlaceFiles | src/components/FileDetails.tsx:72-94 | one placement adds exactly the placed file to the batch members |
| FileDetails.GroupStepFiles | src/components/FileDetails.tsx:72-94 | each file adds itself, and nothing else, to the batch members |
| FileDetails.GroupFiles | src/components/FileDetails.tsx:72-94 | every file lands in exactly one batch: the batch members are the input files with their multiplicities |
| FileDetails.FindBatch | src/components/FileDetails.tsx:75-82 | the loop's search finds the first qualifying batch |
| FileDetails.AssignBatches | src/components/FileDetails.tsx:72-94 | the loop builds exactly the specified batches, and the counter ends at the number of batches |
| FileDetails.ResolveAgreesWithHash | src/components/FileDetails.tsx:107-109 | a file without connector fields (or with an empty name) gets the type and name its file name hashes to |
| FileDetails.SpreadLeavesFallback | src/data/mockData.ts:38-54 | an entry built with the connector spread has no connector field set, so its derived type and name are the file-name hash's, the same as for the plain entry |
| FileDetails.IngestionMapStep | src/components/FileDetails.tsx:112-117 | each Ingestion row sets its name's entry, in row order |
| FileDetails.IngestionMapMembers | src/components/FileDetails.tsx:112-117 | the map holds exactly the names of the Ingestion rows |
| FileDetails.IngestionMapValid | src/components/FileDetails.tsx:96-117 | the map's key order lists each mapped name exactly once |
| FileDetails.IngestionMapLast | src/components/FileDetails.tsx:112-117 | a name's entry comes from its last Ingestion row |
| FileDetails.IngestionRowsFromBatches | src/components/FileDetails.tsx:104-132 | one Ingestion row per batch member, each made from some member under its batch's id |
| FileDetails.IndexingRow | src/components/FileDetails.tsx:135-168 | an Indexing row has 60 credits per MB; an ingested name takes the ingestion's id and reason, any other name a fresh id and its own reason |
| FileDetails.IndexingRows | src/components/FileDetails.tsx:135-169 | one Indexing row per indexing file |
| FileDetails.IndexingRowsNames | src/components/FileDetails.tsx:135-169 | the Indexing rows are Indexing events, each named after the file at its position |
| FileDetails.IndexingRowsSnoc | src/components/FileDetails.tsx:142-153 | each further indexing file appends its row, drawing the next counter value only when its name was not ingested |
| FileDetails.FindIngestionRow | src/components/FileDetails.tsx:173-175 | the search returns the first Ingestion row with that name, and none exactly when there is no such row |
| FileDetails.FindIgnoresIndexingRows | src/components/FileDetails.tsx:171-177 | rows appended after the Ingestion rows do not change what the search finds |
| FileDetails.SynthRows | src/components/FileDetails.tsx:171-207 | the synthesised rows are all Indexing rows |
| FileDetails.EmitBatch | src/components/FileDetails.tsx:105-131 | one batch appends one Ingestion row per member and keeps the map equal to the map of the rows so far |
| FileDetails.EmitIngestion | src/components/FileDetails.tsx:104-132 | the Ingestion loop yields the Ingestion rows of the batches and the map of those rows |
| FileDetails.IndexingStep | src/components/FileDetails.tsx:136-168 | one indexing file yields its row; the counter advances only when its name was not ingested |
| FileDetails.EmitIndexing | src/components/FileDetails.tsx:134-169 | the Indexing loop appends the Indexing rows; the counter advances by the number of names not ingested, and the indexed-name set is the indexing files' names |
| FileDetails.EmitSynthFor | src/components/FileDetails.tsx:172-206 | one map key appends its synthesised row, or nothing when the name was indexed |
| FileDetails.EmitSynth | src/components/FileDetails.tsx:171-207 | the synthesis loop appends the synthesised rows in the map's key order |
| FileDetails.LedgerFromParts | src/components/FileDetails.tsx:54-210 | the ledger is the Ingestion rows, then the Indexing rows, then the synthesised rows |
| FileDetails.FlatTableData | src/components/FileDetails.tsx:54-210 | the whole derivation yields exactly the specified ledger, built with the timestamp parser and the one-hour shift |
| LedgerProperties.IngestionRowsCover | src/components/FileDetails.tsx:104-131 | every batch member has its Ingestion row under its batch's id |
| LedgerProperties.IngestionRowsKinds | src/components/FileDetails.tsx:119-130 | Ingestion rows are Ingestion events without credits |
| LedgerProperties.IngestionCount | src/components/FileDetails.tsx:72-131 | the ledger has exactly one Ingestion row per pipeline file |
| LedgerProperties.IngestionRowsShape | src/components/FileDetails.tsx:104-131 | every Ingestion row is made from a member of some batch j, carries id ids(j) and no credits, keeps the member's name and reason, and uses its explicit connector when there is one |
| LedgerProperties.NamesOfPermutation | src/components/FileDetails.tsx:63-70 | sorting does not change which names occur |
| LedgerProperties.RowNamesAreMemberNames | src/components/FileDetails.tsx:104-131 | the Ingestion rows' names are the batch members' names |
| LedgerProperties.IngestedNames | src/components/FileDetails.tsx:54-132 | the ingested names are exactly the pipeline files' names |
| LedgerProperties.MapEntryOfName | src/components/FileDetails.tsx:112-117 | an ingested name is mapped to the id and reason of its last Ingestion row |
| LedgerProperties.IndexingRowAt | src/components/FileDetails.tsx:135-169 | the i-th Indexing row is built with the counter value after the earlier unmatched names |
| LedgerProperties.IndexingRowsShape | src/components/FileDetails.tsx:134-169 | one Indexing row per indexing file, in order, with 60 credits per MB; an ingested name takes the id and reason of its last Ingestion row; any other name takes the next counter value after the batch ids and keeps its own reason |
| LedgerProperties.Unindexed | src/components/FileDetails.tsx:171-172 | the unindexed keys are exactly the map keys whose name has no indexing file |
| LedgerProperties.UnindexedDistinct | src/components/FileDetails.tsx:171-172 | keys listed once are kept once |
| LedgerProperties.SynthRowsOf | src/components/FileDetails.tsx:171-207 | the synthesised rows correspond one to one, in order, with the unindexed keys, each built from that name's first Ingestion row and its mapped id |
| LedgerProperties.MapKeysFound | src/components/FileDetails.tsx:171-177 | every map key is mapped and has an Ingestion row, so the search always succeeds in the ledger |
| LedgerProperties.SynthesizedNames | src/components/FileDetails.tsx:171-177 | a name gets a synthesised row exactly when a pipeline file carries it and no indexing file does, and only once |
| LedgerProperties.SynthShapeOver | src/components/FileDetails.tsx:171-207 | over any Ingestion rows, one synthesised row per unindexed key, built from its first Ingestion row |
| LedgerProperties.SynthesizedShape | src/components/FileDetails.tsx:171-207 | each synthesised row copies its name's first Ingestion row, at the shifted time, with 60 credits per MB and the name's mapped id |
| LedgerProperties.LedgerLayout | src/components/FileDetails.tsx:54-210 | all Ingestion rows come first, then all Indexing rows; the ledger's length is pipeline files + indexing files + ingested-but-unindexed names |
| LedgerProperties.NoCreditsSum | src/components/FileDetails.tsx:129 | rows without credits add nothing to the credit total |
| LedgerProperties.IndexingRowsCredits | src/components/FileDetails.tsx:135-168 | the Indexing rows carry exactly the chart's indexing total |
| LedgerProperties.LedgerCredits | src/components/FileDetails.tsx:54-210 | the ledger's credits are the chart's indexing bar plus the synthesised rows' credits |
| LedgerProperties.LedgerCreditsParity | src/components/FileDetails.tsx:171-207 | when every ingested name is indexed, nothing is synthesised and the ledger's credits equal the indexing bar |
| LedgerProperties.BatchIdsDrawn | src/components/FileDetails.tsx:86 | Ingestion rows carry ids drawn from the counter |
| LedgerProperties.MapIdsDrawn | src/components/FileDetails.tsx:112-117 | the map keeps only ids of its rows |
| LedgerProperties.IndexingIdsDrawn | src/components/FileDetails.tsx:142-153 | Indexing rows carry a mapped id or a fresh one |
| LedgerProperties.SynthIdsDrawn | src/components/FileDetails.tsx:202 | synthesised rows carry a mapped id |
| LedgerProperties.LedgerIds | src/components/FileDetails.tsx:54-210 | every ledger row carries the id drawn for some counter value |
| LedgerProperties.LedgerIdShape | src/components/FileDetails.tsx:86 | with the real generator, whatever the random draws, every row's id has the processing-id shape |
| LedgerProperties.NoColonFailsSoft | src/components/FileDetails.tsx:180-191 | a timestamp without a colon does not match: its key is ("", 0) and its synthesised time gets " +1h" appended |
| LedgerProperties.SynthTimeWellFormed | src/components/FileDetails.tsx:180-191 | on "W D H:M" the synthesised time is "W D H':M" with H' = (H+1) mod 24, padded to two digits |
| LedgerProperties.PaddedHourValue | src/components/FileDetails.tsx:187 | the padded hour reads back as the same hour |
| LedgerProperties.SynthTimeKey | src/components/FileDetails.tsx:180-191 | read back, the synthesised time has the bucket of W and D, at the next hour modulo 24 and the same minute |
| LedgerProperties.SynthTimeReparse | src/components/FileDetails.tsx:180-191 | the synthesised time stays in the ingestion's day bucket, one hour later modulo 24 |
| AlertsSection.ActiveAlertsMembers | src/components/AlertsSection.tsx:13-16 | an alert is active exactly when it is listed, not mitigated and dated inside the period |
| AlertsSection.ActiveAlertsAppend | src/components/AlertsSection.tsx:13-16 | the filter keeps list order |
| AlertsSection.MaxRank | src/components/AlertsSection.tsx:18-24 | the highest severity rank: at least every alert's rank, reached by one of them, and 0 exactly for no alerts |
| AlertsSection.StatusIsHighestSeverity | src/components/AlertsSection.tsx:18-24 | the status is the highest active severity; each status holds exactly under its condition |
| AlertsSection.MitigateEffect | src/components/AlertsSection.tsx:26-30 | only alerts with that id change, and only in their mitigated flag, which becomes true |
| AlertsSection.MitigateAbsent | src/components/AlertsSection.tsx:26-30 | mitigating an unknown id changes nothing |
| AlertsSection.MitigateIdempotent | src/components/AlertsSection.tsx:26-30 | mitigating twice equals mitigating once |
| AlertsSection.MitigateCommutes | src/components/AlertsSection.tsx:26-30 | two mitigations commute |
| AlertsSection.MitigatedNeverActive | src/components/AlertsSection.tsx:13-30 | a mitigated id is active in no period |
| AlertsSection.MitigateShrinksActive | src/components/AlertsSection.tsx:13-30 | mitigation never makes an alert active |
| MultiSelect.WithoutEffect | src/components/MultiSelect.tsx:27 | removal drops every occurrence of the option and nothing else |
| MultiSelect.WithoutAppend | src/components/MultiSelect.tsx:27 | removal keeps the order |
| MultiSelect.WithoutAbsent | src/components/MultiSelect.tsx:27 | removing an absent option changes nothing |
| MultiSelect.ToggleFlips | src/components/MultiSelect.tsx:25-31 | after a toggle the option is selected exactly when it was not; other options keep their counts |
| MultiSelect.ToggleTwice | src/components/MultiSelect.tsx:25-31 | toggling a new option twice restores the selection |
| MultiSelect.DisplayText | src/components/MultiSelect.tsx:33-37 | the placeholder for none, the item for one, the decimal count and " selected" for more |
| MockData.GetConnectorForFile | src/data/mockData.ts:38-42 | the connector's name is the fixed name of its type |
| MockData.ConnectorPairs | src/data/mockData.ts:31-42 | the character-code sum modulo 3 picks exactly one of the three type/name pairs |
| MockData.CharCodeSumPermutation | src/data/mockData.ts:39 | the sum ignores character order |
| MockData.SameSumSameConnector | src/data/mockData.ts:38-42 | equal sums, or rearranged names, give the same connector |
| MockData.WithConnector | src/data/mockData.ts:38-54 | a fixture entry with the spread keeps `connectorType` and `connectorName` unset, gains the hashed connector under the separate `type` and `name` keys, and is otherwise the plain entry |
| GroupedView.VisibleSectionsSpec | src/components/GroupedView.tsx:29-37 | a section is shown exactly when its list is non-empty, Unstructured first |
| GroupedView.PipelineShowsUnstructured | src/components/GroupedView.tsx:30-35 | with an Unstructured key present, the Pipeline section lists the Unstructured files, so both sections show or neither does |
| GroupedView.EmptyUnstructuredHidesPipeline | src/components/GroupedView.tsx:33-37 | an empty present Unstructured list hides the Pipeline section even when pipeline files exist |
| GroupedView.SectionTotal | src/components/GroupedView.tsx:39-48 | the header total is the sum of the per-file credits |
| GroupedView.SectionTotalByMeter | src/components/GroupedView.tsx:39-48 | the Unstructured total is the chart's indexing bar, the Pipeline total the pipeline bar, of the listed files |
| GroupedView.SectionTotalNonNegative | src/components/GroupedView.tsx:39-48 | every total is non-negative |
| GroupedView.RowConnectorAgrees | src/components/GroupedView.tsx:118-120 | a row's connector is the ledger's connector for that file, and the hashed one without connector fields |
| GroupedView.ToggleSection | src/components/GroupedView.tsx:17-25 | the new set flips the meter's membership and keeps every other membership |
| GroupedView.ToggleTwiceRestores | src/components/GroupedView.tsx:17-25 | toggling twice restores the set |
| GroupedView.ToggledUnique | src/components/GroupedView.tsx:17-25 | a toggle determines the new set |
| FlatView.FilterRowsMembers | src/components/FlatView.tsx:42-51 | exactly the matching rows are kept, with their multiplicities |
| FlatView.FilterRowsAppend | src/components/FlatView.tsx:42-51 | the filter keeps row order |
| FlatView.InitialMatchesAll | src/components/FlatView.tsx:15-22 | every row passes the initial filters |
| FlatView.ClearedKeepsAll | src/components/FlatView.tsx:114-123 | after clearing the filters every row is kept, in order |
| FlatView.Conjunctive | src/components/FlatView.tsx:43-50 | a row passes exactly when it passes each filter on its own |
| FlatView.FileNameFilterIgnoresCase | src/components/FlatView.tsx:44 | the file-name filter ignores the letter case of the filter text |
| FlatView.FileNameFilterIgnoresRowCase | src/components/FlatView.tsx:44 | the file-name filter ignores the letter case of the row's file name |
| FlatView.DistinctSortedValues | src/components/FlatView.tsx:25-39 | the option list holds every non-empty value of the rows once, strictly ascending |
| FlatView.ConnectorNames | src/components/FlatView.tsx:25-31 | the connector-name options are the non-empty names, once each, ascending |
| FlatView.IngestionIds | src/components/FlatView.tsx:33-39 | the processing-id options are the non-empty ids, once each, ascending |
| FlatView.StrictlySortedUnique | src/components/FlatView.tsx:30 | an option list is determined by its set of values |
| FlatView.FirstKeys | src/components/FlatView.tsx:73-78 | the group keys are exactly the rows' keys, once each |
| FlatView.Members | src/components/FlatView.tsx:74-78 | a group holds only rows of its key |
| FlatView.OrderKeys | src/components/FlatView.tsx:81-86 | sorting the group ids permutes them |
| FlatView.OrderKeysMembers | src/components/FlatView.tsx:81-86 | sorting keeps the same group ids |
| FlatView.DistinctOrderKeys | src/components/FlatView.tsx:81-86 | sorted group ids stay free of repetitions |
| FlatView.FlattenMultiset | src/components/FlatView.tsx:88-100 | flattening distinct groups gives their rows, up to order |
| FlatView.FlattenContiguous | src/components/FlatView.tsx:88-100 | the flattened table holds each group in one run |
| FlatView.ArrangedGroup | src/components/FlatView.tsx:92-98 | an arranged group holds only rows of its group |
| FlatView.FlattenKeyOrder | src/components/FlatView.tsx:88-100 | the groups appear in the order of the sorted ids |
| FlatView.Regrouping | src/components/FlatView.tsx:72-100 | the regrouped table is a permutation of the filtered rows, one run per group, with groups by first occurrence or by id ascending/descending |
| FlatView.GroupRows | src/components/FlatView.tsx:72-78 | the grouping loop yields each key's rows in order, with keys in first-occurrence order |
| FlatView.GroupByIngestionId | src/components/FlatView.tsx:72-100 | the grouping, id sort and flattening yield the regrouped table |
| FlatView.GroupStep | src/components/FlatView.tsx:74-78 | one row extends its group and adds its key when new |
| FlatView.HandleSortSpec | src/components/FlatView.tsx:105-112 | the clicked column becomes the sort column; the direction flips on the same column and is ascending on a new one |
| FlatView.HandleSortTwice | src/components/FlatView.tsx:105-112 | clicking the sort column twice restores the state, a new column twice sorts it descending |
| FlatView.SortIndicatorAfterClick | src/components/FlatView.tsx:125-128 | only the clicked column shows a direction, and a second click reverses it |
| FlatView.GroupCompareSpec | src/components/FlatView.tsx:92-98 | the within-group comparator puts a file's Ingestion row before its Indexing row, treats every other pair as equal, and is antisymmetric |
| FlatView.GroupCompareInconsistent | src/components/FlatView.tsx:92-98 | equality under the within-group comparator is not transitive, so it is no consistent order |
| FlatView.CompareCellsSpec | src/components/FlatView.tsx:54-69 | a missing value sorts after in both directions; descending negates ascending between present values |
| FlatView.CompareAntisymmetric | src/components/FlatView.tsx:54-69 | between present values, swapping rows swaps the sign |
| FlatView.CompareCreditsInconsistent | src/components/FlatView.tsx:59-60 | two rows without credits each compare as after the other |
| FlatView.FilteredAndSortedData | src/components/FlatView.tsx:41-103 | the table body is the filtered rows, column-sorted when a column is chosen, then regrouped |
| FlatView.TableIsFilteredPermutation | src/components/FlatView.tsx:41-103 | whatever the engine sorts do, so long as they permute, the table shows exactly the filtered rows, one run per group |
| Text.NatToString | src/components/FileDetails.tsx:187 | the decimal text is non-empty and all digits |
| Text.NatToStringRoundTrip | src/components/FileDetails.tsx:185-187 | reading the decimal text of n back gives n; it has no leading zero |
| Text.PadStart2Spec | src/components/FileDetails.tsx:187 | the result has length 2, or the text's length when longer; it ends with the text, and every character before it is '0' |
| Text.Lower | src/components/FlatView.tsx:44 | lower-casing maps each character and keeps the length |
| Text.StrLessTransitive | src/components/FileDetails.tsx:67 | code-unit order is transitive |
| Text.StrLessTotal | src/components/FileDetails.tsx:67 | code-unit order is total |
| Text.SortStrings | src/components/FlatView.tsx:30 | the default sort permutes and orders the strings |
| Text.SortKeepsDistinct | src/components/FlatView.tsx:30 | sorting keeps values free of repetitions |
| FixtureChecks.AlertsOfLastDay | src/data/mockData.ts:25-29 | in the last 24 hours alerts 1 and 2 are active and the status is High; after mitigating alert 1 only alert 2 is, and the status is Medium |
| FixtureChecks.KeySeptember5At1000 | src/data/mockData.ts:47 | "September 5 10:00" parses to ("September 5", 600) |
| FixtureChecks.SynthTimeSeptember10At1100 | src/data/mockData.ts:232 | "September 10 11:00" is synthesised as "September 10 12:00" |
| FixtureChecks.SynthTimeWrapsAtMidnight | src/components/FileDetails.tsx:186-188 | 23:30 becomes 00:30 of the same written day |
| FixtureChecks.OneBatchOfThree | src/components/FileDetails.tsx:63-94 | three files of one bucket within 30 minutes of the first, in time order, form one batch opened by the first |
| FixtureChecks.SpacedGroup | src/components/FileDetails.tsx:72-94 | for updates of one day bucket 15 minutes apart, the first m form ceil(m/3) batches of three consecutive updates, each opened by its first update under the id for its position |
| FixtureChecks.EightEvenlySpaced | src/components/FileDetails.tsx:72-94 | eight updates 15 minutes apart form batches of 3, 3 and 2, opened by the first, fourth and seventh |
| FixtureChecks.EvenlySpacedSorted | src/components/FileDetails.tsx:63-70 | evenly spaced updates are already in time order |
| FixtureChecks.PipelineOctober31 | src/data/mockData.ts:174-181 | the eight pipeline updates of 31 October run from 07:00 to 08:45, every 15 minutes |
| FixtureChecks.BatchesOfOctober31 | src/data/mockData.ts:172-181 | those eight updates form batches of 3, 3 and 2 opened at 07:00, 07:45 and 08:30 with the first three ids |
| FixtureChecks.BatchesOfSeptember5 | src/data/mockData.ts:45-50 | the three ingestion updates of 5 September form one batch opened at 10:00 with the first id |
| FixtureChecks.ReasonCarriedOver | src/data/mockData.ts:45-55 | the indexing event of "Customer data.png" says Updated, but its row takes Added and the batch id from the ingestion |
| FixtureChecks.ReasonInLedger | src/components/FileDetails.tsx:144-148 | with one batch of one reason, an ingested indexing file's row takes that reason and the batch's id |
| FixtureChecks.IndexingCreditsSeptember5 | src/data/mockData.ts:51-55 | the three Indexing rows of 5 September carry 1470, 1092 and 1968 credits |
| FixtureChecks.IndexingSeptember5 | src/data/mockData.ts:51-55 | the indexing bar of 5 September is 4530 credits |
| FixtureChecks.CreditsOfSeptember5 | src/data/mockData.ts:45-55 | 5 September synthesises nothing and its ledger's credits are 4530 |
| FixtureChecks.TwoSynthesized | src/components/FileDetails.tsx:171-207 | a date whose two ingested names are both unindexed gets exactly two synthesised rows, with different names drawn from those two, so one per name |
| FixtureChecks.SynthesizedOfSeptember10 | src/data/mockData.ts:224-234 | 10 September gets exactly two synthesised rows, with different names, one for each of its two pipeline files |
| FixtureChecks.UniqueIngestionRow | src/components/FileDetails.tsx:119-130 | the Ingestion row of a name carried by one pipeline file has that file's time and size |
| FixtureChecks.SynthesizedOfUnique | src/components/FileDetails.tsx:171-207 | an ingested file whose name is unique and unindexed gets a synthesised row with its name, its shifted time, its size and 60 credits per MB |
| FixtureChecks.WednesdaySynthesized | src/data/mockData.ts:224-234 | 10 September gets "Wednesday pipeline.pdf" at "September 10 12:00", 16.4 MB, 984 credits |

## Left out

- Rendering: React state, memoisation, JSX, styling, the header text and period labels (src/components/FileDetails.tsx:38-48), the view toggle, and the early `return null` for an empty date (src/components/FileDetails.tsx:212-214). Only the data each view derives is modelled.
- Dropdown.tsx, CreditsChart.tsx, Controls.tsx, StatsSection.tsx and Dashboard.tsx are not part of this model, including the dashboard's total of the bars. They pass data down or draw it.
- The suggestion lists in src/data/mockData.ts are not modelled, because no core computation reads them. src/types/index.ts appears only as datatypes.
- Dates are whole-day numbers in 2025, with 1 November 2025 as the reference day. `toLocaleDateString` formatting is not modelled, and neither is the `M/D/YYYY` parsing of `dateValue`. A time zone west of UTC reads `new Date('2025-11-01')` as 31 October local time, which would shift every chart date by a day; the model reads the configured dates as calendar dates.
- Floating point: credits and sizes are exact reals, so `2000 / 1000000` is exactly 0.002. Display rounding (`toFixed`, `toLocaleString`) is not modelled. A size text is pre-parsed into an optional megabyte count, and a non-numeric one counts as 0. The fixtures' `credits` text field is not modelled, because no computation reads it.
- Number precision: `parseInt` and `hours * 60 + minutes` (src/utils/dataGenerator.ts:101-115, src/components/FileDetails.tsx:185-187) compute in IEEE doubles, which stop being exact for digit strings above 2^53. The model's integers are unbounded, so it describes timestamps whose numbers are small, as every fixture's are.
- `localeCompare` is modelled as code-unit order. `toLowerCase` folds only ASCII letters. `charCodeAt` is the Dafny character code.
- `Math.random`: each random nibble is a parameter (`draws`). `FixtureChecks.BatchesOfSeptember5` and the other fixture checks use any id source, so they say nothing about which strings the ids are. No lemma claims that the ids differ: the source's ids can collide.
- FlatView.FilteredAndSortedData: the column sort (src/components/FlatView.tsx:53-70) and the within-group sort (src/components/FlatView.tsx:92-98) are engine sorts under comparators that are not consistent orders. Both are parameters, required only to permute. Of the two comparators, `FlatView.CompareCells` models the column comparator and `FlatView.GroupCompare` the within-group comparator; only the sorts that use them are left out.
- FlatView.FilteredAndSortedData: `group.sort` also reorders the groups of the returned `grouped` object in place (src/components/FlatView.tsx:92, 102). Only the returned rows are modelled.
- FlatView.FirstKeys: JavaScript enumerates integer-like object keys (such as "42") before all others, in numeric order. The model uses insertion order, which is what generated ids and "no-id" get.
- FixtureChecks.BatchesOfOctober31: stated for any date whose eight pipeline updates carry the 31 October timestamps, rather than for the literal fixture entry. `FixtureChecks.PipelineOctober31` shows the fixture has those timestamps. Evaluating the ledger of the eight-file literal is out of the verifier's budget.
- FixtureChecks.WednesdaySynthesized and FixtureChecks.SynthesizedOfSeptember10: stated for any timestamp parser and any id source. They fix only the synthesised time function, which is the ledger's own.
- DataGenerator.ParseTimeForGrouping: the `fullTime` field the source also returns is not modelled, because nothing in the ledger reads it.
