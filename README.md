# CRM pipeline model

A Dafny model of the data pipeline in `data_manager.py` of the company
dashboard demo. The pipeline takes the raw CRM records (deals, contacts and
pipeline stages) and works in three steps:

- **Cleaning.** `clean_deals` reconciles the records into one cleaned row
  per eligible deal.
- **Segment summary.** `create_grouped_segments_df` rolls the cleaned table
  up by client segment.
- **Band summary.** `create_conv_rate_revenue_band` rolls it up by client
  segment and deal-value band. Every segment gets all five bands, zero-filled.

The project is organised as follows:

- `wrappers.dfy`: `Option` and `Result`.
- `frames.dfy`: the table model. A data frame is a set of column labels plus
  a sequence of rows. A row maps labels to cell values, and a cell absent
  from a row reads as missing (NaN). A `KeyError` is `MissingColumn`.
- `seqs.dfy`: row-wise shapes of column operations (map, filter, flat-map)
  and their lemmas.
- `custom_fields.dfy` (module `CustomFields`): `extract_custom_fields`, the
  prefixing of field names into column labels, and the flattening of the
  `custom_fields` column into columns.
- `reconcile.dfy` (module `Reconcile`): `clean_deals`, step by step as a
  method (`CleanDeals`). It is proved equal to the concatenation of what
  each deal contributes (`Reconciled`). Lemmas say what every row of the
  cleaned table satisfies.
- `rollup.dfy` (module `Rollup`): what the two summaries share.
  - The cells a summary reads from a cleaned row (`Deal`).
  - The tally of a group of deals (`Tally`): counts, converted and missed
    counts, revenue, missed revenue and lead times.
  - The observed segments.
  - The loops that compute all tallies in one pass (`Tabulate`,
    `TabulateCells`).
- `segment_summary.dfy` (module `SegmentSummary`) and `band_summary.dfy`
  (module `BandSummary`): the two summaries. Each is a method proved equal
  to a table function, with lemmas about every row and about the sums over
  the rows.
- `pipeline.dfy` (module `Pipeline`): how the summaries apply to a cleaned
  table.

Numbers are exact reals, and a summary row holds its values before pandas
rounds them. A missing summary cell (NaN) is `None`.

Two behaviours of the code worth knowing:

- **Bands are right-closed.** `pd.cut` with `include_lowest=True` puts a
  value of exactly 5000 in `$0-5K` (and 10000 in `$5-10K`, and so on).
  A negative value gets no band at all (`Reconcile.BandOf`).
- **The custom-field namespaces can collide.** The code keeps a deal field
  whose name already starts with `custom` as it is. So a deal field named
  `custom (contact) Client Segment`, or `(contact) Client Segment`, yields
  the same column label as the contact field `Client Segment`
  (`CustomFields.DealContactCollision`, `CustomFields.SegmentLabelsCanCollide`).

## Model

| member | source | states |
|---|---|---|
| CustomFields.FromRecords | data_manager.py:28-29 | a list of field records gives a dict exactly when every record with a `name` also has a `value` (otherwise `KeyError`); its keys are exactly the names of the records that have one |
| CustomFields.LastRecordWins | data_manager.py:29 | when a name occurs more than once, the dict holds the value of its last record |
| CustomFields.Extract | data_manager.py:27-30 | a list goes through the record comprehension; a dict is returned as it is; any other cell (including NaN) gives an empty dict |
| CustomFields.DealKey | data_manager.py:34 | a deal column label always starts with `custom`; it is the field name itself exactly when the name already starts with `custom`, and `custom ` + name otherwise |
| CustomFields.DealKeyIdempotent | data_manager.py:34 | prefixing a deal label a second time changes nothing |
| CustomFields.ContactKey | data_manager.py:39 | a contact column label is `custom (contact) ` + name, and the name can be read back from it |
| CustomFields.ContactKeyInjective | data_manager.py:39 | distinct contact field names give distinct labels |
| CustomFields.DealContactCollision | data_manager.py:34-39 | a deal label equals a contact label exactly when the deal field is named `custom (contact) ` + the contact name or `(contact) ` + the contact name |
| CustomFields.SegmentLabelsCanCollide | data_manager.py:34-39 | an illustration of `DealContactCollision`, not a separate result: a deal field `(contact) Client Segment` lands on the contact segment's label |
| CustomFields.PrefixDealFields | data_manager.py:34 | the prefixed columns are exactly the deal labels of the field names, and each holds its field's value unless two names share a label |
| CustomFields.PrefixContactFields | data_manager.py:39 | the prefixed columns are exactly the contact labels, each holding its field's value |
| CustomFields.ExtractAll | data_manager.py:33-38 | the `apply` over the column succeeds exactly when every row's extraction does, and then gives one dict per row, in order |
| CustomFields.Flatten | data_manager.py:33-40 | a table without `custom_fields` raises `KeyError`; otherwise it fails exactly when some row's records raise; on success it keeps every row, and each row gains its prefixed fields; the columns are the old ones plus exactly the prefixed labels of some row's fields |
| Reconcile.StageMap | data_manager.py:43 | the stage lookup has exactly the stage ids as keys |
| Reconcile.LastStageWins | data_manager.py:43 | an id's last stage row gives the name it maps to |
| Reconcile.PreparedStageAndValue | data_manager.py:44-46 | after the first steps a deal has the stage name its `stage_id` maps to (NaN when unmapped) and the parsed value, or 0 when the value does not parse |
| Reconcile.PreparedKeeps | data_manager.py:44-54 | those steps parse `added_at` and leave `contact_id` and the deal's own segment alone |
| Reconcile.ConvertDates | data_manager.py:48-51 | the date loop parses, row by row, each of the four date columns the table has and skips the others |
| Reconcile.WithDatesKeeps | data_manager.py:48-51 | the date loop changes no column other than the date columns the table has: neither a cell nor whether the row has it |
| Reconcile.DatesParsed | data_manager.py:48-51 | after the date loop, every date column the table has holds the row's old cell, parsed (NaT for a missing or unparseable one) |
| Reconcile.Prepare | data_manager.py:43-54 | the stage lookup, the value coercion, the date loop and the parsing of `added_at` give, for each deal in order, its row-wise prepared row |
| Reconcile.EligibleMeans | data_manager.py:54-56 | a deal passes the filters exactly when its stage is terminal and its `added_at` parses to 2022-01-01 or later |
| Reconcile.ConvertedCells | data_manager.py:44-57 | an eligible deal's row carries its stage, `added_at`, value and `converted` = (stage is `Event Complete`) |
| Reconcile.Merged | data_manager.py:60-61 | a merged row takes the contact's segment (NaN without a match); the deal and contact ids become `id_x`/`id_y` when the deals have an `id` column |
| Reconcile.MergedKeeps | data_manager.py:60-61 | the merge leaves every other deal cell alone |
| Reconcile.JoinContacts | data_manager.py:60-61 | a left merge gives one row per matching contact, in the contacts' order, or one unmatched row when none match |
| Reconcile.AtMostOneMatch | data_manager.py:60-61 | with unique contact ids a deal matches at most one contact |
| Reconcile.SingleMergedRow | data_manager.py:60-67 | with unique contact ids a deal gives exactly one merged row, whose settled segment is the deal's own segment, or its contact's when its own is NaN |
| Reconcile.SegmentResolution | data_manager.py:63-82 | a surviving row's `client_segment` is the synonym-mapped resolved segment |
| Reconcile.Canonical | data_manager.py:69-77 | a legacy label is replaced by its canonical label, and nothing else changes; no output is a legacy label |
| Reconcile.RenameRowCell | data_manager.py:79-84 | after the renaming the old labels are gone, each new label holds the old label's cell, and other cells are unchanged |
| Reconcile.RenameColumns | data_manager.py:79-84 | the renamed column set has a new label when the old label or the new one was present, no old label, and the other labels unchanged |
| Reconcile.NormalizedEventStart | data_manager.py:79-80 | after the renaming, `event_start_date` holds the row's `custom Event Start` cell |
| Reconcile.NormalizedSegment | data_manager.py:63-84 | after settling, mapping and renaming, `client_segment` is the synonym-mapped settled segment |
| Reconcile.NormalizedKeeps | data_manager.py:63-84 | those steps change no column outside the renamed ones |
| Reconcile.SurvivorSegment | data_manager.py:87 | no cleaned row has an excluded segment or a legacy segment label |
| Reconcile.FinishedSegment | data_manager.py:87 | a merged row that passes the exclusion keeps a segment that is neither excluded nor a legacy label |
| Reconcile.LeadTime | data_manager.py:88 | the lead time is missing exactly when a timestamp is; otherwise it is the whole number of days, floored, between `added_at` and the event start |
| Reconcile.BandOf | data_manager.py:89-94 | a value gets a band exactly when it is non-negative, and that band is the one whose right-closed range holds it |
| Reconcile.FinishedDerived | data_manager.py:88-94 | the last steps add `lead_time` and `deal_band` computed from the row's cells |
| Reconcile.FinishedKeeps | data_manager.py:86-104 | the last steps change no cell other than the derived and dropped ones |
| Reconcile.DropSensitiveCell | data_manager.py:97-104 | the sensitive columns are gone, whether they were present or not, and every other cell is unchanged |
| Reconcile.CleanedColumnsDerived | data_manager.py:44-104 | the cleaned table has the stage name, value, `added_at`, `converted`, `client_segment`, lead time, band and contact segment columns |
| Reconcile.CleanedColumnsKeep | data_manager.py:79-104 | every deal column that is neither sensitive, renamed nor `id` survives under its own label |
| Reconcile.CleanedColumnsRenamed | data_manager.py:79-84 | a renamed deal column survives under its new label |
| Reconcile.FinishedOwnCells | data_manager.py:88-104 | a finished row's lead time and band agree with its own cells, and it holds no sensitive column |
| Reconcile.Finish | data_manager.py:63-104 | the column-wise steps after the merge (segment fallback, synonym mapping, renaming, exclusion, lead time, band, drop) give exactly the row-wise `AfterMerge` of the merged rows |
| Reconcile.Reconciled | data_manager.py:43-104 | defines the rows one flattened deal contributes: none unless, after the stage lookup, value coercion and date parsing, it passes the window and stage filters; otherwise its merged rows that survive the exclusion, finished. Its properties are `Provenance`, `Survivor*`, `OneRowPerDeal` and `SegmentResolution` |
| Reconcile.ReconciledAll | data_manager.py:24-106 | defines the cleaned rows as the concatenation of every deal's contribution, in the deals' order; `CleanDeals` is proved to produce it |
| Reconcile.MissingColumnOf | data_manager.py:43-88 | the first column the code indexes and cannot find; there is none exactly when all the required columns are present |
| Reconcile.CleanDeals | data_manager.py:24-106 | the deal flattening's failure comes first, then the contacts', then the first missing column; otherwise the result has the cleaned columns and the rows every deal contributes, in the deals' order |
| Reconcile.ReconciledAllSteps | data_manager.py:43-104 | the column-wise steps on the whole table give the concatenation of the row-wise contributions |
| Reconcile.AfterMergeSource | data_manager.py:63-104 | every row after the merge steps is a finished, non-excluded merged row |
| Reconcile.Provenance | data_manager.py:54-104 | a cleaned row comes from an eligible deal through one of its merged rows |
| Reconcile.MergedRowKeeps | data_manager.py:60-61 | a merged row keeps the prepared deal's cells apart from the ids and the contact segment |
| Reconcile.SurvivorKeeps | data_manager.py:44-104 | a cleaned row keeps its deal's stage name, `added_at`, `converted` and value |
| Reconcile.Survivor | data_manager.py:54-57 | every cleaned row has a terminal stage, a parsed `added_at` of 2022-01-01 or later, and `converted` exactly when its stage is `Event Complete` |
| Reconcile.SurvivorValue | data_manager.py:46 | a cleaned row's value is the parsed value, or 0 when the value does not parse |
| Reconcile.PreparedEventStart | data_manager.py:48-51 | when the deals have `custom Event Start`, the row of a deal just before the merge holds that cell, parsed |
| Reconcile.SurvivorLeadTime | data_manager.py:48-88 | when the deals have `custom Event Start`, a cleaned row's `event_start_date` is its deal's `custom Event Start`, parsed, and its lead time runs from the deal's parsed `added_at` to it |
| Reconcile.SurvivorDerived | data_manager.py:88-104 | a cleaned row's lead time and band agree with its own cells, and it holds no sensitive column |
| Reconcile.OneRowPerDeal | data_manager.py:54-87 | with unique contact ids a deal gives at most one cleaned row, and gives one exactly when its stage is terminal, its `added_at` is in the window and its resolved segment is not excluded |
| Reconcile.TableRowSource | data_manager.py:24-106 | every row of the cleaned table comes from one of the deals |
| Reconcile.AtMostOneRowPerDeal | data_manager.py:24-106 | with unique contact ids the cleaned table has no more rows than there are deals |
| Rollup.DealsOf | data_manager.py:118-136 | the summaries read one deal per cleaned row, in order |
| Rollup.FirstMissing | data_manager.py:159-162 | the first needed column that is absent; there is none exactly when all are present |
| Rollup.Tally | data_manager.py:118-196 | defines what every `groupby(...).agg(...)` of the summaries computes for one group: its deal count, its `converted` sum, its missed count, converted and missed `decimal_value` sums, and its lead-time sum and count; the loops `Tabulate` and `TabulateCells` are proved to compute it |
| Rollup.TallyBalance | data_manager.py:192-196 | in every group the converted and missed deals add up to all deals, and the converted and missed revenue add up to the total value; a group without converted deals has no revenue |
| Rollup.Observed | data_manager.py:118 | the group keys are distinct, never NaN, and include every segment a deal has |
| Rollup.ObservedSound | data_manager.py:118 | every group key is the segment of some deal |
| Rollup.NullSplit | data_manager.py:118-130 | the total over all deals is the segmented deals' total plus that of the deals without a segment, which the group-by drops |
| Rollup.ObservedNonEmpty | data_manager.py:118 | an observed segment has at least one deal |
| Rollup.UnobservedEmpty | data_manager.py:162 | a segment that no deal has has empty tallies, in every band |
| Rollup.SubGroup | data_manager.py:162-170 | a group inside another has no more converted deals |
| Rollup.Tabulate | data_manager.py:118-136 | the loop gives the segments in first-appearance order, each segment's tally, the number of deals with a segment and the total converted revenue |
| Rollup.TabulateCells | data_manager.py:162-193 | the loop gives the tally of every (segment, band) cell, empty cells included |
| Rollup.SegmentsPartition | data_manager.py:118-125 | the segments' tallies add up to the tally of all deals with a segment |
| Rollup.BandsPartition | data_manager.py:162 | a segment's five band tallies add up to the tally of its deals with a band |
| SegmentSummary.RowFrom | data_manager.py:118-145 | defines a segment row from its tally: rate = converted/total, deal share = total/all segmented deals × 100, revenue and average deal size 0 without converted deals (the `fillna(0)`), mean lead time NaN without lead times, revenue share NaN without converted deals or with a zero total; its properties are the `SegmentRow*` lemmas |
| SegmentSummary.SegmentTable | data_manager.py:118-147 | defines the summary as one `RowFrom` row per observed segment; `SummarizeSegments` is proved to produce it |
| SegmentSummary.SummarizeSegments | data_manager.py:108-147 | a missing column gives that column's `KeyError`; otherwise the result is the segment table of the deals |
| SegmentSummary.SegmentRowsDistinct | data_manager.py:118 | no segment has two rows |
| SegmentSummary.SegmentRowsObserved | data_manager.py:118 | every row's segment is not NaN and is the segment of some deal |
| SegmentSummary.SegmentRowsComplete | data_manager.py:118 | every segment a deal has gets a row |
| SegmentSummary.SegmentRowCounts | data_manager.py:118-122 | a row's total and converted counts are its segment's; it has at least one deal; its rate is converted/total and lies between 0 and 1 |
| SegmentSummary.SegmentRowRevenue | data_manager.py:129-144 | a row's revenue is its segment's converted revenue; average deal size × converted deals = revenue; without converted deals both are 0 |
| SegmentSummary.SegmentRowLeadTime | data_manager.py:136-145 | the average lead time is missing exactly when no deal of the segment has one; otherwise it is the mean of the known lead times |
| SegmentSummary.SegmentRowShare | data_manager.py:130-142 | the share of revenue is missing exactly when the segment has no converted deal or the total is 0; otherwise it is 100 × segment revenue / total |
| SegmentSummary.SegmentTotals | data_manager.py:125-142 | the rows' deal counts add up to the deals with a segment; a table with rows has deal percentages adding up to 100; the rows' revenue plus that of the deals without a segment is the total; the revenue shares add up to 100 when every converted deal's segment is known |
| SegmentSummary.SumCounts | data_manager.py:118-132 | over any list of segments, the rows' counts and revenue add up to the segments' tallies |
| SegmentSummary.SumPct | data_manager.py:125-126 | the rows' deal percentages add up to 100 × their deals / all deals with a segment |
| SegmentSummary.SumRevenueShares | data_manager.py:142 | the rows' revenue shares add up to 100 × their revenue / the total |
| BandSummary.BandRowFrom | data_manager.py:166-199 | defines a band row from its cell's tally, its segment's converted count, the total revenue and the segment's share sum: rate = 100 × converted/total or 0; cell revenue 0 for a segment without converted deals; share NaN for such a segment or a zero total; within-segment mix = share / share sum × 100 when that sum is positive, else 0; average deal size = revenue / converted or 0; expected value = rate/100 × average; missed revenue and count from the cell; its properties are the `BandRow*` and `RevenueMix*` lemmas |
| BandSummary.ConvRateRevenueBand | data_manager.py:149-201 | a missing column gives that column's `KeyError`; otherwise the result is the band table of the deals |
| BandSummary.SegmentBandRows | data_manager.py:162-199 | the five rows of one segment, in band order, from the tallies |
| BandSummary.BandTable | data_manager.py:162 | the table has five rows per observed segment |
| BandSummary.BandTableRow | data_manager.py:162 | row 5j+m is segment j's row for band m |
| BandSummary.BandTableSlice | data_manager.py:162 | segment j's five rows are its rows for the five bands, in order |
| BandSummary.BandRowsUnique | data_manager.py:162 | no (segment, band) pair has two rows |
| BandSummary.BandRowsComplete | data_manager.py:162 | every segment a deal has gets a row for every band, empty ones included |
| BandSummary.BandRowsObserved | data_manager.py:162 | every row's segment is not NaN and is the segment of some deal |
| BandSummary.BandRowCounts | data_manager.py:162-199 | a row's total, converted and missed counts, its revenue and its missed revenue are its cell's; converted and missed deals add up to the total, and revenue and missed revenue to the cell's whole value |
| BandSummary.BandRowRates | data_manager.py:166-189 | rate × total = 100 × converted, and the rate is 0 without deals; average deal size × converted = revenue, and the average is 0 without converted deals; expected value × total = revenue, so the expected value is the revenue per deal, and it is 0 without deals |
| BandSummary.BandRowShare | data_manager.py:170-180 | the share of revenue is missing exactly when the segment has no converted deal or the total is 0; otherwise share × total = 100 × cell revenue |
| BandSummary.CellFacts | data_manager.py:162-170 | a cell's converted and missed deals add up to its deals, and its revenue and missed revenue to its whole value; it has no revenue without converted deals and no more converted deals than its segment |
| BandSummary.SumBandRows | data_manager.py:162-170 | over any list of bands, the rows' counts and revenue add up to the bands' tallies |
| BandSummary.ShareSumOf | data_manager.py:176-184 | a segment's shares add up to 0 when it has no converted deal or the total is 0, and to 100 × its banded revenue / total otherwise |
| BandSummary.SumWithinRows | data_manager.py:183-185 | the rows' within-segment percentages add up to 100 × their shares / all the segment's shares |
| BandSummary.BandsSplitSegment | data_manager.py:162-170 | a segment's five rows add up to the counts and revenue of its deals with a band |
| BandSummary.RevenueMix | data_manager.py:183-185 | when a segment's shares add up to more than 0, its within-segment percentages add up to 100 |
| BandSummary.RevenueMixEmpty | data_manager.py:183-185 | otherwise every within-segment percentage of the segment is 0 |
| BandSummary.RevenueMixSign | data_manager.py:176-184 | with a positive total, a segment's shares add up to more than 0 exactly when its banded converted revenue is positive |
| Pipeline.CleanedTableSummarizes | data_manager.py:97-104 | the cleaned table has every column both summaries index, so neither raises `KeyError` on it |
| Pipeline.CleanedSegment | data_manager.py:87 | no deal the summaries read from a cleaned table has an excluded or legacy segment |
| Pipeline.SegmentSummaryOfCleaned | data_manager.py:87 | no row of the segment summary of a cleaned table is for an excluded or legacy segment |
| Pipeline.BandSummaryOfCleaned | data_manager.py:87 | the same for the band summary |

## Left out

- Fetching the records (`fetch_data`, data_manager.py:11-22) is network I/O. The three tables are parameters of `CleanDeals`.
- The script block at the end of data_manager.py, and app.py, are not part of this model.
- Rounding (`round(2)`, `round(4)`, `round()`, `round(1)`) is left out: every summary value is the exact value before rounding.
- Floating-point values are exact reals, so NaN and infinity are not modelled. When the converted deals bring in 0 in total, pandas computes a segment's share as 0/0 (NaN) or x/0 (±inf). The model gives `None` for every such share.
- `pd.to_numeric` and `pd.to_datetime` are the parameters `Parsers.number` and `Parsers.date`, because the parsing of strings, time zones and date formats is not modelled. The date parser yields whole seconds since the epoch in UTC.
- Reconcile.CleanDeals returns `Ok` where the code raises `TypeError` at data_manager.py:54. `tz_convert(None)` raises whenever the parsed `added_at` column carries no time zone, and that includes a deals table with no rows. The `TypeError` that subtracting a naive timestamp from an aware one raises at data_manager.py:88 is not modelled either.
- Reconcile.CleanDeals does not model column dtypes, nor the errors pandas raises because of them. A deals table with a raw `event_start_date` column and no `custom Event Start` is accepted, and every lead time comes out missing. The code never parses that column, so the subtraction at data_manager.py:88 raises `TypeError`. The merge at data_manager.py:61 raises `ValueError` when the key dtypes do not match, for example string `contact_id` against integer contact `id`; the model compares the cells as values.
- Summary row order: rows come in the order segments first appear, whereas pandas sorts the group keys. The contents of each row and the set of rows are modelled.
- Duplicate column labels are not modelled; a row is a map from label to cell. This covers a custom field whose name and its `custom`-prefixed form both occur, and a custom column that clashes with a raw column.
- The `_x`/`_y` suffixing of `custom (contact) Client Segment`, which happens when the deals already carry a column with that label, is not modelled.
- Reconcile.OneRowPerDeal, Reconcile.SingleMergedRow, Reconcile.SegmentResolution and Reconcile.AtMostOneRowPerDeal assume unique contact ids. Without that, a deal contributes one row per matching contact, which `JoinContacts` and `CleanDeals` model in full.
- Rollup.DealOf reads a `converted` cell that is not the boolean true as not converted, and a value that is not a number as 0. The cleaned table always holds booleans and numbers there.
- BandSummary.BandRowCounts: the missed deal count is the count of missed deals, whereas pandas counts the non-missing `decimal_value` cells of those deals. These are equal because cleaning fills every value.
- Reconcile.CleanDeals checks the required columns before running the steps, not at the step that indexes each one. It reports the same `KeyError` first: the code's order of flattening, then stage, value, date and contact columns.
- Field records that are not dictionaries, and field names that are not strings, are not modelled. A record either has a name or not, and it has a value or not.
- BandSummary.BandRowShare: the within-segment percentage of a cell whose share is NaN is modelled as 0. pandas would give NaN, but such a cell only arises when all of its segment's shares are NaN, and then the code gives 0.
