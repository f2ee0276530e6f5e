# Labour-statistics record reconciliation, modelled in Dafny

This project models the record-reconciliation pipeline of `src/process_bls.py`.
The pipeline takes yearly occupational employment and wage spreadsheets and does six things:

- it makes their column labels consistent;
- it crosswalks each occupation code to the 2019 code generation, choosing the crosswalk by report year;
- it classifies every area into a peer group, defaulting to "All Other MSA";
- it turns suppression markers into nulls;
- it stamps the report year, projects onto a fixed column list and appends to a merged dataset;
- it drops the catch-all rows and splits the result by aggregation level (`o_group`).

Modules, one per component:

- `Tables` (`tables.dfy`): the data model. A cell is `Null` or `Str(text)`. A table is a list of column labels and positional rows. `Get` reads the first column with a label. `Put` assigns to a label, replacing that column or appending a new one at the right, as pandas' `df[label] = ...` does.
- `Normalise` (`normalise.dfy`): `much_consistency`.
- `Lookups` (`lookups.dfy`): the map-building of `load_msa_lookup` and `load_oes_lookup` from rows already read. `dict(zip(...))` becomes `DictOf`, where the last row wins.
- `Crosswalk` (`crosswalk.dfy`): `map_soc`, written step by step as the source does it. `MapSocRouting` proves it equal to a per-row specification applied to the regrouped rows.
- `Peers` (`peers.dfy`): `map_peer_type`.
- `Nulls` (`nulls.dfy`): `map_nulls`.
- `ReportYear` (`year.dfy`): the file-name regular expression of line 192, as a function that returns an `Option`.
- `Frames` (`frames.dfy`): the data frame as a class. Its methods make the in-place updates of the helpers and are specified by the functions above.
- `Driver` (`driver.dfy`): the loop of `clean_bls`: `ProcessFile` handles one file, `MergeFile` is one pass of the loop, `MergeAll` runs the loop over all files, and `CleanBls` adds the final filter. It also holds `split_bls_ogroup`.

Behaviour of the code that the model keeps as written:

- When a path has no year, or a required column is missing, the code raises an exception and the whole run stops; no file is skipped. The model returns a `Failure` naming the file for the whole run.
- With no spreadsheet in the data folder, the accumulator of line 180 stays a frame without columns, and the filter of line 210 raises on its missing `peer_type` column. The model returns `Failure(NoFiles)`; see Findings.
- Detailed rows get their title from the identity map `'1919'`, not from the code -> title map `'19'`; see Findings.
- Year selection is hard-coded: the bands 2014-2016 and 2017-2018 have their own maps, and every other year, including years before 2014, uses `'1919'`.

A consequence of the code's stage order is worth knowing. Peer classification never leaves `peer_type` null. But if the area lookup itself holds a marker such as `*`, null harmonisation then nulls that peer type. Such rows are not "All Other MSA", so they survive the final filter.

## Model

| member | source | states |
|---|---|---|
| `Tables.GetFirstColumn` | src/process_bls.py:84-90 | when lower-casing makes two labels equal, reading that label gives the cell under its first occurrence |
| `Normalise.Lower` | src/process_bls.py:84 | lower-casing keeps the length, maps each character to its lower-case form, and yields a lower-case label |
| `Normalise.NormalisedLabel` | src/process_bls.py:84-90 | a normalised label is lower-case and never one of the three synonym labels; a lowered synonym (`occ_group`, `loc quotient`, `area_name`) becomes its canonical label (`o_group`, `loc_quotient`, `area_title`), and any other lowered label is kept as is |
| `Normalise.NormalisedColumns` | src/process_bls.py:84-90 | the same number of labels in the same order; each is lower-case, none is `occ_group`, `loc quotient` or `area_name`, and each is its label lowered and renamed |
| `Normalise.NormaliseIdempotent` | src/process_bls.py:84-90 | normalising twice gives the same labels as normalising once |
| `Frames.Frame.NormaliseColumns` | src/process_bls.py:84-90 | lowers and then renames the frame's labels in place, so the labels become the normalised labels of the old ones; the rows are untouched |
| `Lookups.DictOfKeys` | src/process_bls.py:59-62 | a key is in a `dict(zip(...))` map exactly when some row carries it as a non-null key |
| `Lookups.DictOfLastWins` | src/process_bls.py:59-62 | the value under a key is the value on the last row with that key |
| `Lookups.LoadMsaLookup` | src/process_bls.py:25 | the area -> peer-group map knows exactly the areas that occur, non-null, in the reference rows |
| `Lookups.MsaLookupLastRow` | src/process_bls.py:25 | an area's peer group is the peer type on the area's last row of the reference table |
| `Lookups.LoadSocLookup` | src/process_bls.py:59-67 | each of the four maps knows exactly the non-null codes of its key column: 2010 SOC codes for `'1019'`, 2018 OES codes for `'1819'`, and 2019 OES codes for `'1919'` and `'19'` |
| `Lookups.Soc1019LastRow` | src/process_bls.py:59 | the `'1019'` map sends a 2010 code to the 2019 code of its last crosswalk row |
| `Lookups.Oes1819LastRow` | src/process_bls.py:60 | the `'1819'` map sends a 2018 code to the 2019 code of its last crosswalk row |
| `Lookups.SocIdentityMap` | src/process_bls.py:61-62 | the `'1919'` map sends every 2019 code to itself and knows the same codes as the `'19'` map |
| `Lookups.Oes19LastRow` | src/process_bls.py:62 | the `'19'` map sends a 2019 code to the title on its last crosswalk row |
| `Lookups.Lookup` | src/process_bls.py:117 | `Series.map(dict)`: the stored value for a known non-null key, null for a null or unknown key |
| `Crosswalk.SelectMapping` | src/process_bls.py:107-114 | 2014-2016 selects `'1019'`, 2017-2018 selects `'1819'`, and every other year (2019 and later, and before 2014 by the default) selects `'1919'` |
| `Crosswalk.MapSoc` | src/process_bls.py:117-133 | the result is well formed and its columns are the input's plus `oes_code_2019` and `oes_title_2019` (each added only if absent) |
| `Crosswalk.MapSocRouting` | src/process_bls.py:117-133 | the steps of `map_soc` yield exactly the per-row crosswalk of every input row, regrouped as matched detailed rows, then fallback detailed rows, then all other rows |
| `Crosswalk.RegroupedIsPermutation` | src/process_bls.py:130-133 | regrouping is a permutation of the input rows, so no row is dropped or added |
| `Crosswalk.RoutedInInputOrder` | src/process_bls.py:120-125 | each of the three groups keeps its rows in input order |
| `Crosswalk.MapSocKeepsRowCount` | src/process_bls.py:120-133 | `map_soc` returns as many rows as it was given |
| `Crosswalk.CrosswalkedRow` | src/process_bls.py:117-131 | the crosswalk of one row has one cell per output column; its cells are stated by `Crosswalk.CrosswalkedRowFields` |
| `Crosswalk.Recombine` | src/process_bls.py:120-133 | the recombined rows all fit the output columns; which rows they are, and in what order, is stated by `Crosswalk.MapSocRouting` |
| `Crosswalk.CrosswalkedRowFields` | src/process_bls.py:117-131 | a detailed row gets the primary map's code, else the `'1819'` code, else null, with the code's `'1919'` entry as title; any other row copies `occ_code` and `occ_title`; no other cell changes |
| `Crosswalk.DetailedTitleIsCode` | src/process_bls.py:131 | as written, a detailed row's title is its own new code, or null |
| `Crosswalk.TitleCounterexample` | src/process_bls.py:131 | a 2016 detailed row mapped to 15-1252 gets the title "15-1252" although the crosswalk lists "Software Developers" |
| `Crosswalk.CrosswalkedRowIntended` | src/process_bls.py:62 | with the intended lookup, the code is as before and a detailed row's title is its code's entry in the `'19'` map; other cells are unchanged |
| `Crosswalk.IntendedTitleFromCrosswalk` | src/process_bls.py:62 | with the intended lookup, a detailed row gets the title of the crosswalk row that lists its new code |
| `Frames.Frame.MapSoc` | src/process_bls.py:117-133 | writes the primary-map code column into this frame and returns a fresh frame holding `map_soc`'s result |
| `Peers.PeerOf` | src/process_bls.py:151-152 | the peer type is never null: the area's looked-up group when present and non-null, else "All Other MSA" |
| `Peers.MapPeerType` | src/process_bls.py:151-152 | adds or replaces the `peer_type` column and keeps every row |
| `Peers.PeerTypeAssigned` | src/process_bls.py:151-152 | after classification each row's `peer_type` is non-null and equals the lookup value or "All Other MSA", and every other cell is unchanged |
| `Frames.Frame.MapPeerType` | src/process_bls.py:151-152 | updates the frame in place to the classified table |
| `Nulls.HarmonisedRow` | src/process_bls.py:165-166 | a cell becomes null exactly when it is null or one of `#`, `*` or `**`; every other cell is unchanged |
| `Nulls.MapNulls` | src/process_bls.py:165-166 | keeps the labels and the number of rows |
| `Nulls.NoSentinelLeft` | src/process_bls.py:165-166 | no marker is left anywhere after harmonisation |
| `Nulls.MapNullsIdempotent` | src/process_bls.py:165-166 | harmonising twice is harmonising once |
| `Frames.Frame.MapNulls` | src/process_bls.py:166 | replaces the markers in place |
| `ReportYear.DigitRun` | src/process_bls.py:192 | the length of the maximal run of digits at a position |
| `ReportYear.YearAt` | src/process_bls.py:192 | the year read at a matching position is at least 1000 |
| `ReportYear.DecimalValueLowerBound` | src/process_bls.py:192 | a digit string without a leading zero is worth at least 10 to the power of its length minus one |
| `ReportYear.SearchFrom` | src/process_bls.py:192 | finds the leftmost match at or after a position, and returns `None` exactly when there is none |
| `ReportYear.ExtractYear` | src/process_bls.py:192 | `None` exactly when no `M`, non-zero digit, three or more digits and `_` occur; otherwise the digits of the leftmost match as a number of at least 1000 |
| `ReportYear.ExtractYearExample` | src/process_bls.py:192 | `M2016_data.xlsx` yields 2016 |
| `Driver.FirstMissing` | src/process_bls.py:199-205 | names a required column that is absent, or `None` when all are present (the code's KeyError) |
| `Driver.Project` | src/process_bls.py:197-205 | one record per row, each stamped with the report year and holding the row's output cells |
| `Driver.FileRecords` | src/process_bls.py:188-205 | no contract of its own: one file's records, or the error the code raises; stated by `Driver.FileRecordsErrors` and `Driver.FileRecordsShape`, and `Driver.ProcessFile` is proved equal to it |
| `Driver.FileRecordsErrors` | src/process_bls.py:188-205 | a file that fails names its own path, and it fails for want of a report year exactly when its path holds none |
| `Driver.ProcessFile` | src/process_bls.py:188-205 | one file through normalisation, year extraction, crosswalk, peer classification, harmonisation and projection gives the specified records, or the error the code raises |
| `Driver.Merged` | src/process_bls.py:180-207 | no contract of its own: the fold of the loop, each file's records appended in order and the first failure ending the run; stated by `Driver.MergedStep`, `Driver.MergedFailurePersists`, `Driver.MergedFailureNamesFile`, `Driver.MergedYears` and `Driver.MergedKeepsEveryRow`, and `Driver.MergeAll` is proved equal to it |
| `Driver.MergedFailureNamesFile` | src/process_bls.py:187-207 | a failed run fails with the error of one of its files |
| `Driver.MergedErrorNamesFile` | src/process_bls.py:187-207 | a failed run's error names the path of one of its files and is never the empty-folder error |
| `Driver.MergedStep` | src/process_bls.py:187-207 | after one more file the accumulator is the old one followed by that file's records, or, when the file fails, the whole run ends with that file's error |
| `Driver.MergedFailurePersists` | src/process_bls.py:187-207 | once a file fails, the run ends with that file's error |
| `Driver.MergeFile` | src/process_bls.py:187-207 | one pass of the loop gives the accumulator with this file's records appended, or the failure that ends the run |
| `Driver.MergeAll` | src/process_bls.py:187-208 | the loop over the files, appending each file's records and stopping at the first failure, yields the specified merge of all files |
| `Driver.Clean` | src/process_bls.py:180-210 | a run fails with the empty-folder error exactly when there are no files; a successful run's records are a subsequence of the merged records |
| `Driver.CleanBls` | src/process_bls.py:180-213 | the merged records of all files without the catch-all rows, or the first error, or the empty-folder error when there are no files |
| `Driver.WithoutCatchAll` | src/process_bls.py:210 | keeps exactly the records whose peer type is not "All Other MSA" |
| `Driver.WithoutCatchAllKeepsOrder` | src/process_bls.py:210 | the filter keeps the records in order, each other record exactly as often as it was merged and no catch-all record |
| `Driver.CleanEmptyFolder` | src/process_bls.py:180-210 | as written, a run over no files fails, where the intended run returns no records |
| `Driver.CleanIntended` | src/process_bls.py:180-210 | the intended run returns no records for an empty folder, is the run as written otherwise, and never fails for want of files |
| `Driver.CleanHasNoCatchAll` | src/process_bls.py:210 | after the final filter no record has peer type "All Other MSA" |
| `Driver.FileRecordsShape` | src/process_bls.py:192-205 | a file that succeeds gives one record per input row, each with its path's report year, which is at least 1000 |
| `Driver.MergedYears` | src/process_bls.py:187-207 | every merged record carries a report year of at least 1000 |
| `Driver.MergedKeepsEveryRow` | src/process_bls.py:187-207 | a successful merge holds as many records as the input files have rows |
| `Driver.WithGroup` | src/process_bls.py:226-228 | a partition holds exactly the records of its `o_group` |
| `Driver.SplitByGroup` | src/process_bls.py:226-228 | the three results hold exactly the records whose `o_group` is `total`, `major` and `detailed` respectively |
| `Driver.WithGroupInOrder` | src/process_bls.py:226-228 | a partition keeps the records' original relative order |
| `Driver.SplitCoversGrouped` | src/process_bls.py:226-228 | the three partitions together are, as a multiset, the records whose level is total, major or detailed |
| `Driver.SplitDisjoint` | src/process_bls.py:226-228 | each partition holds only its own level, so no record is in two partitions |
| `Driver.SplitPartitions` | src/process_bls.py:226-228 | each partition keeps the original order, and together they are exactly the records of the three levels |

## Left out

- Reading and writing spreadsheets is not modelled: `pd.read_excel` with its five skipped note rows, `to_excel`, and the `glob` walk of the data folder. Input is a sequence of (path, table) pairs and crosswalk or area rows already read. Output is the returned records and partitions. `process_bls` (lines 234-248), which only writes the three partitions, is left out for the same reason.
- `src/google_api.py` and `mcdc_tech_talent.py` are not part of this model. They hold network transfer, authentication and command-line glue.
- Failed lookup loads are not modelled. On a failed read, `load_msa_lookup` and `load_oes_lookup` print and return `None` (lines 28-30, 70-72), and the pipeline then fails on its first use. The model always receives built maps.
- Printing is left out, and so are pandas index alignment and `reset_index`.
- Pandas' dtype inference is not modelled. Every non-null cell is a string, so an area code read as a number in one sheet and as text in the other is not distinguished. Null (NaN) keys in a lookup are treated as absent, and a null looked-up value reads as no match.
- `Normalise.Lower`: lower-cases only `A`-`Z`. Python's `str.lower` also folds non-ASCII letters.
- `ReportYear.ExtractYear`: accepts only the ASCII digits `0`-`9`. Python's `\d` also matches other Unicode decimal digits.
- `Tables.GetFirstColumn`: with duplicate column labels (possible after lower-casing), a label reads its first column. Pandas would return a sub-frame and usually fail later.
- `Driver.FirstMissing`: when the projection lacks columns, the model names the first missing one. Pandas' KeyError lists them all.
- The `report_year` column is stamped by `Driver.Project` as the record's integer field. It is not first added as a column.
- The numeric statistics are carried as opaque cells. No arithmetic is done on them.
- There is no concurrency. The source loop is sequential, and so is the model.

## Findings

| source | as written | input that shows it | evidently intended | confidence | as-written member | corrected member |
|---|---|---|---|---|---|---|
| src/process_bls.py:210 | with no spreadsheet under the data folder the loop never runs, `df_merged` stays the column-less frame of line 180, and selecting `df_merged['peer_type']` raises a KeyError | an empty data folder: the run ends with an error instead of an empty result | return an empty frame when no file was found | medium; not executed | `Driver.CleanEmptyFolder` | `Driver.CleanIntended` |
| src/process_bls.py:131 | the title of a matched or fallback detailed row is its new code looked up in `soc_lookup['1919']`, a map from each 2019 code to itself, so the title column receives the code again (or null); the code -> title map `'19'` built at line 62 is never used | a 2016 file with a detailed row whose `occ_code` is 15-1132, and a crosswalk row with 2019 code 15-1252, title "Software Developers" and 2010 code 15-1132: the row's `oes_title_2019` becomes "15-1252" | look the code up in `soc_lookup['19']`, giving "Software Developers" | high; not executed | `Crosswalk.TitleCounterexample` | `Crosswalk.CrosswalkedRowIntended` |

The driver keeps the code's as-written behaviour, including its errors: `Driver.Clean` fails on an empty folder, and crosswalked rows take the title of line 131. The corrected row function and its lemma `Crosswalk.IntendedTitleFromCrosswalk` state what a fix at line 131 would give. `Driver.CleanIntended` states what a fix at line 210 would give.
