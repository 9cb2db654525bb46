# BI Mini Project ETL core, in Dafny

The BI Mini Project loads a World Cube Association results export into a small
star schema. The schema has the dimension tables Competition, Puzzle, Time,
Localization and Nationality, and the fact table Attendance. This project
models the decision and transformation half of that ETL, found in
`utils/module_functions.py`, and proves properties of the model:

- **Version tracker** (`version_tracker.dfy`, module `VersionTracker`).
  `compare_version` cuts the version token (the text before the first `.`)
  from the archive name. It compares that token with the token of the first
  value of the used-version JSON record, and rewrites the record to
  `{"used_version": token}` only when the version is new. The record is a
  field of the class `UsedVersionFile`.
- **Row-delta reader** (`row_delta.dfy`, module `RowDelta`).
  - `get_number_of_rows` counts a file's lines in a loop.
  - `single_table_pipeline` looks up the previous line count under
    `prefix + table + ext`. It returns nothing when the count is unchanged or
    has shrunk. Otherwise it returns the header, the unread lines and the new
    count.
  - `SkipRows` keeps the lines `skiprows=range(1, prior)` leaves, line by
    line, and is proved to be the header plus a slice of the file.
  - The specification function `ReadDelta` states what it returns, and the
    lemmas show that reads one after another reassemble a growing file.
- **Key helpers** (`keys.dfy`, module `Keys`):
  - `valid_table`, a loop with an early return;
  - `generate_id`;
  - Python's `str()` of an integer;
  - the `day_month_year` Time key;
  - the lower-cased `city_region` place key.
- **Frame operations** (`frames.dfy`, module `Frames`). These are the pandas
  operations the transformers chain, written as functions over sequences:
  - `dropna` with a projection is `FilterMap`;
  - `drop_duplicates` is `Dedup`, and `drop_duplicates(subset=...)`, which
    keeps the first row, is `DedupBy`;
  - `merge(how='left')` is `LeftJoin`, where missing keys match each other
    as NaN keys do in pandas;
  - the group size is `Occurrences`.
- **Table transformers** (`transformers.dfy`, module `Transformers`). Each of
  the six `*_data_preparation` functions is a batch function, giving the rows
  it appends. Lemmas state what each batch contains, the uniqueness of its
  keys and the counts of Attendance.
- **Destination store** (`store.dfy`, module `Warehouse`). The class `Store`
  has one `seq` field per destination table. Each transformer method appends
  its batch to that field when the insert succeeds, and returns `true`
  whether or not it does. Localization and Attendance can raise before the
  insert. Their methods report that as the `Outcome` `Raised` and leave the
  table unchanged.

Two facts from the Unicode database are a parameter
`UnicodeDb(isWord, toLower)`: which characters the regular expression class
`\w` matches, and a one-to-one character mapping standing for `str.lower`. Whitespace (`\s`)
is the concrete `str.isspace` set. Whether a `to_sql` insert raises is the
parameter `writeSucceeds`.

Where the table descriptions and the code disagree, the model follows the code:

- The Competitions frame is modelled without a `continentId` column, and the
  Results frame without a `countryId` column. The merges in
  `localization_data_preparation` and `attendance_data_preparation` would
  otherwise suffix those columns (`_x`/`_y`). The later lookups of
  `continentId` (utils/module_functions.py:250-254) and `Country_id`
  (utils/module_functions.py:354) would then fail.
- A Nationality row's `Id` is the country's name and not the country's
  identifier, because utils/module_functions.py:309 copies `Name` into `Id`.

## Model

| member | source | states |
|---|---|---|
| VersionTracker.VersionToken | utils/module_functions.py:62 | the token is a prefix of the name, contains no `.`, and is followed by `.` when it is shorter than the name |
| VersionTracker.UsedVersionFile.CompareVersion | utils/module_functions.py:58-83 | returns true exactly when the record is empty or its first value's token differs from the file's token; then the record becomes the single entry `used_version: token`; otherwise the record is unchanged |
| VersionTracker.IsNewVersion | utils/module_functions.py:67-76 | defines "new version": no record yet, or a recorded token different from the file name's; `CompareVersion` and `RecordedVersionIsNotNew` state its use |
| VersionTracker.VersionTokenIdempotent | utils/module_functions.py:62 | cutting a token again at its first `.` leaves it unchanged |
| VersionTracker.RecordedVersionIsNotNew | utils/module_functions.py:67-83 | after the record is rewritten for a file name, the same file name is not a new version |
| VersionTracker.VersionTokenBeforeDot | utils/module_functions.py:62 | the token of `before + "." + after` is `before` when `before` has no `.` |
| VersionTracker.ExampleToken | utils/module_functions.py:62 | the token of `export123.tsv.zip` is `export123` |
| VersionTracker.StoredValueIsCut | utils/module_functions.py:74-76 | a stored value is compared only up to its first `.`, whatever its key: equal tokens give "not new" |
| Keys.ValidTable | utils/module_functions.py:85-94 | true exactly when the file name ends with one of the needed table names |
| Keys.StripDisallowed | utils/module_functions.py:107 | the result is no longer than the input; it holds only kept characters (word, whitespace, `-`), each taken from the input; it is the input itself when every input character is kept |
| Keys.StripDisallowedAppend | utils/module_functions.py:107 | the substitution works character by character: a kept character stays, any other vanishes, and a concatenation maps to the concatenation of the outputs |
| Keys.GenerateId | utils/module_functions.py:104-109 | the identifier is no longer than its input, contains no space, and holds only word characters, non-space whitespace or `-` |
| Keys.GenerateIdAppend | utils/module_functions.py:104-109 | generate_id works character by character: a space becomes `_` (when `_` is a word character), any other kept character stays, the rest vanish, and concatenations map to concatenations, so kept characters survive in order |
| Keys.GenerateIdIdempotent | utils/module_functions.py:104-109 | applying generate_id twice gives the same result as applying it once |
| Keys.GenerateIdOfKeptText | utils/module_functions.py:104-109 | on text of kept characters only, generate_id only turns spaces into `_` |
| Keys.PlaceKey | utils/module_functions.py:264-265 | the `city_region` key of Localization (and, with the country id, of Attendance at :353-354) has no space and is at most one character longer than city and region together |
| Keys.PlaceKeyIgnoresCase | utils/module_functions.py:264-265 | the `city_region` key is equal for arguments that lower-case alike, because it reads them only after `str.lower` |
| Keys.NatToString | utils/module_functions.py:221 | str() of a natural number is a non-empty string of decimal digits with no leading zero |
| Keys.NatToStringRoundTrip | utils/module_functions.py:221 | reading back the digits str() prints gives the number |
| Keys.IntToString | utils/module_functions.py:221 | str() of an integer is non-empty and contains no `_` |
| Keys.IntToStringInjective | utils/module_functions.py:221 | different integers print differently |
| Keys.SplitAtUnderscore | utils/module_functions.py:221 | `a_b` splits back into `a` and `b` when `a` has no `_` |
| Keys.TimeId | utils/module_functions.py:221 | defines the `day_month_year` key from `str()` of each part; `TimeIdInjective` states that it identifies the date |
| Keys.TimeIdInjective | utils/module_functions.py:221 | two `day_month_year` keys are equal exactly when their integer triples are equal |
| RowDelta.PriorRowCount | utils/module_functions.py:121-128 | the previous count is the value recorded under the key, or 0 when the map is empty or lacks the key |
| RowDelta.GetNumberOfRows | utils/module_functions.py:96-102 | the counting loop returns the number of lines |
| RowDelta.SkipRows | utils/module_functions.py:147-152 | the lines `skiprows=range(1, prior)` leaves, line by line: line i is dropped exactly when 1 <= i < prior; the header always stays first |
| RowDelta.SkipRowsIsSlice | utils/module_functions.py:147-152 | skipping rows 1 .. prior-1 leaves the header followed by every line from index max(prior, 1) on |
| RowDelta.ReadDelta | utils/module_functions.py:139-153 | nothing is read exactly when the new line count is at most the previous one |
| RowDelta.SingleTablePipeline | utils/module_functions.py:111-153 | returns the delta read of the file for the count recorded under `prefix + table + ext` |
| RowDelta.ReadDeltaContents | utils/module_functions.py:146-153 | when the file has grown, the read of the lines `skiprows` leaves is the header, exactly the lines from index max(prior, 1) on, and the full line count |
| RowDelta.FirstRunReadsEverything | utils/module_functions.py:121-153 | with no previous count, a header and N data lines read as those N lines and the count N + 1 |
| RowDelta.RereadIsEmpty | utils/module_functions.py:139-140 | recording the count a read returned makes the next read of the unchanged file return nothing |
| RowDelta.IncrementalReadsReassemble | utils/module_functions.py:139-153 | for a file that only grows, the first read and the read after it return every data line once, in order, under the same header |
| Frames.FilterMap | utils/module_functions.py:166 | `dropna` with a projection keeps no more rows than the input |
| Frames.FilterMapSound | utils/module_functions.py:166 | every kept row is the projection of an input row that survives the filter |
| Frames.FilterMapComplete | utils/module_functions.py:166 | every input row that survives the filter is kept, projected |
| Frames.FilterMapAppend | utils/module_functions.py:166 | row filtering distributes over appending frames |
| Frames.DedupBy | utils/module_functions.py:270 | `drop_duplicates(subset=...)` keeps no more rows than the input |
| Frames.DedupBySubset | utils/module_functions.py:270 | every kept row is a row of the input |
| Frames.DedupByCovers | utils/module_functions.py:270 | every key of the input is the key of some output row |
| Frames.DedupByDistinct | utils/module_functions.py:270 | no two output rows share a key |
| Frames.DedupByKeepsFirst | utils/module_functions.py:270 | the row kept for a key is that key's first row in the input |
| Frames.DedupProperties | utils/module_functions.py:217 | `drop_duplicates` gives pairwise-distinct rows and keeps exactly the input's rows |
| Frames.Matches | utils/module_functions.py:245-249 | the right rows matching a key are exactly the right rows whose key is that key |
| Frames.JoinRowProperties | utils/module_functions.py:245-249 | one left row joins to each of its matches in order, or to a single null row when nothing matches |
| Frames.LeftJoin | utils/module_functions.py:245-249 | a left join has at least as many rows as its left frame |
| Frames.LeftJoinSound | utils/module_functions.py:245-249 | every joined row pairs a left row with a right row of the same key, or with null when no right row has that key |
| Frames.LeftJoinComplete | utils/module_functions.py:245-249 | every left row is joined to every right row of its key, and to null when there is none |
| Frames.LeftJoinAppend | utils/module_functions.py:289-295 | joining appended left frames is appending their joins |
| Frames.Occurrences | utils/module_functions.py:362-363 | the group size is at most the row count and is positive exactly for present rows |
| Frames.SumOccurrencesOfDistinct | utils/module_functions.py:362-368 | the group sizes of the distinct rows add up to the row count |
| Frames.DedupMapInjective | utils/module_functions.py:365-367 | deduplicating rows tagged by an injective function is tagging the deduplicated rows |
| Transformers.CompetitionBatch | utils/module_functions.py:164-170 | the Competition rows: dropna and the (Id, Name) projection, never more rows than the frame; `CompetitionBatchRows` characterises them |
| Transformers.CompetitionBatchRows | utils/module_functions.py:155-171 | a Competition row is exactly the (Id, Name) of an input row with no null cell |
| Transformers.CompetitionBatchAppend | utils/module_functions.py:155-171 | the batch keeps row order: the batch of two frames appended is the two batches appended |
| Transformers.PuzzleBatch | utils/module_functions.py:187-192 | the Puzzle rows: dropna and the (Id, Name) projection, never more rows than the frame; `PuzzleBatchRows` characterises them |
| Transformers.PuzzleBatchRows | utils/module_functions.py:179-193 | a Puzzle row is exactly the (Id, Name) of an event with no null cell |
| Transformers.PuzzleBatchAppend | utils/module_functions.py:179-193 | the batch of two event frames appended is the two batches appended |
| Transformers.TimeBatch | utils/module_functions.py:210-222 | the Time rows: one per distinct non-null date, never more rows than competitions; `TimeBatchSound`, `TimeBatchComplete` and `TimeBatchIdsDistinct` characterise them |
| Transformers.TimeBatchSound | utils/module_functions.py:201-222 | every Time row is a competition's non-null date under the Id `day_month_year` |
| Transformers.TimeBatchComplete | utils/module_functions.py:201-222 | every non-null competition date has its Time row |
| Transformers.TimeBatchIdsDistinct | utils/module_functions.py:215-221 | one row per distinct date, so the Ids of a batch are pairwise distinct |
| Transformers.PlaceOfLocated | utils/module_functions.py:244-261 | a non-null (City, Country, Continent) of the double left join comes from matching competition, country and continent rows |
| Transformers.LocalizationPlaces | utils/module_functions.py:244-261 | defines the distinct (City, Country, Continent) triples of the double left join after dropna and drop_duplicates; `PlaceOfLocated` and `LocalizationComplete` characterise them |
| Transformers.LocalizationBatch | utils/module_functions.py:240-270 | the Localization rows: at most one per surviving place; `LocalizationSound`, `LocalizationComplete`, `LocalizationIdsDistinct` and `LocalizationKeepsFirst` characterise them |
| Transformers.LocalizationRaises | utils/module_functions.py:264-265 | defines when the Id apply raises: no place survives; `LocalizationRaisesIffEmpty` relates it to the batch |
| Transformers.LocalizationIdsDistinct | utils/module_functions.py:270 | the appended Localization rows have pairwise-distinct Ids |
| Transformers.LocalizationSound | utils/module_functions.py:231-270 | every Localization row is a located (city, country, continent) under the Id generate_id(lower(city) + `_` + lower(country)) |
| Transformers.LocalizationComplete | utils/module_functions.py:231-270 | every located place has a row with its Id |
| Transformers.LocalizationIdIgnoresCase | utils/module_functions.py:264-265 | rows whose city and country names lower-case alike get the same Id |
| Transformers.LocalizationRaisesIffEmpty | utils/module_functions.py:258-265 | the call raises (no place survives dropna) exactly when the batch would be empty |
| Transformers.LocalizationKeepsFirst | utils/module_functions.py:264-270 | of several places whose Ids collide, the row kept is that of the first place |
| Transformers.ContinentLabel | utils/module_functions.py:304-307 | defines the Continent label; `ContinentLabelInjective` and `ContinentLabelExamples` state its properties |
| Transformers.ContinentLabelInjective | utils/module_functions.py:304-307 | different continents get different labels |
| Transformers.ContinentLabelExamples | utils/module_functions.py:304-307 | "Asia" becomes "Asian", "Europe" becomes "Europen" and "Multiple Continents" becomes "Multiple" |
| Transformers.NationalityBatch | utils/module_functions.py:287-312 | defines the Nationality rows; `NationalitySound`, `NationalityComplete` and `NationalityBatchAppend` characterise them |
| Transformers.NationalitySound | utils/module_functions.py:279-312 | every Nationality row is a named country with a matched, named continent: Id is the country name, Name its dictionary lookup, Continent the label of the continent |
| Transformers.NationalityComplete | utils/module_functions.py:279-312 | every named country with a matched, named continent has its row, with a null Name when the dictionary lacks it |
| Transformers.NationalityBatchAppend | utils/module_functions.py:279-312 | the batch of two country frames appended is the two batches appended |
| Transformers.AttendanceRaises | utils/module_functions.py:353-354 | defines when the Localization_id apply raises: empty Results, or a merged row without a competition, city or countryId |
| Transformers.AttendanceKeys | utils/module_functions.py:338-359 | defines, for dated competitions, the key tuples that survive dropna; `AttendanceKeySound` and `AttendanceKeyComplete` characterise them |
| Transformers.GroupSizes | utils/module_functions.py:362-368 | one counted row per distinct key tuple, never more rows than tuples; the `GroupSizes` lemmas below characterise it |
| Transformers.AttendanceBatch | utils/module_functions.py:338-368 | defines the Attendance rows as the group sizes of the surviving key tuples |
| Transformers.GroupSizesIsCountedKeys | utils/module_functions.py:362-368 | the counted and deduplicated key rows are one counted row per distinct key tuple, in first-seen order |
| Transformers.GroupSizesKeysDistinct | utils/module_functions.py:362-368 | no two Attendance rows share a (Competition_id, Localization_id, Puzzle_id, Nationality_id, Time_id) tuple |
| Transformers.GroupSizesCounts | utils/module_functions.py:362-363 | each row's Number_of_participants is the number of surviving rows with its tuple, at least 1 |
| Transformers.GroupSizesCover | utils/module_functions.py:362-368 | every surviving key tuple has its row |
| Transformers.TotalOfCounted | utils/module_functions.py:362-363 | the counts of a tagged key list add up to the sum of the group sizes |
| Transformers.GroupSizesTotal | utils/module_functions.py:362-368 | the participant counts add up to the number of surviving result rows |
| Transformers.AttendanceKeySound | utils/module_functions.py:338-359 | for dated competitions, every key tuple comes from a result and the competition it matched: Localization_id from city and countryId, Time_id from the date |
| Transformers.AttendanceKeyComplete | utils/module_functions.py:338-359 | for dated competitions, every result matched to a competition with city and countryId, with its own three keys present, contributes its key tuple |
| Transformers.AttendanceTimeIdsInTime | utils/module_functions.py:346-351 | for dated competitions, every Time_id of the surviving Attendance rows is the Id of a row of the Time batch of the same competitions |
| Warehouse.Store.constructor | main.py:133-146 | the six destination tables start empty, as the CREATE statements leave them |
| Warehouse.Store.CompetitionsDataPreparation | utils/module_functions.py:155-177 | Competition gains the batch when the insert succeeds and nothing otherwise; returns true |
| Warehouse.Store.PuzzleDataPreparation | utils/module_functions.py:179-199 | Puzzle gains the batch when the insert succeeds and nothing otherwise; returns true |
| Warehouse.Store.TimeDataPreparation | utils/module_functions.py:201-229 | Time gains the batch when the insert succeeds and nothing otherwise; returns true |
| Warehouse.Store.LocalizationDataPreparation | utils/module_functions.py:231-277 | raises, leaving Localization unchanged, when no place survives dropna; otherwise Localization gains the batch when the insert succeeds and nothing when it fails, and the call returns true |
| Warehouse.Store.NationalityDataPreparation | utils/module_functions.py:279-319 | Nationality gains the batch when the insert succeeds and nothing otherwise; returns true |
| Warehouse.Store.AttendanceDataPreparation | utils/module_functions.py:321-375 | raises, leaving Attendance unchanged, when Results is empty or a result's competition is missing or lacks city or countryId; otherwise Attendance gains the batch when the insert succeeds and nothing when it fails, and the call returns true |

## Left out

- `main.py` is not part of this model, except that the store starts with
  the six empty tables its CREATE statements make (main.py:133-146). It
  covers configuration loading, the HTTP download, zip extraction, the JSON
  and SQL file handling and logging.
  It also never handles the "nothing to read" outcome of
  `single_table_pipeline`.
- `read_config` and `get_destination_download_endpoint`
  (utils/module_functions.py:18-56) are file, YAML, HTTP and HTML-parsing
  calls.
- File reads become parameters:
  - the used-version JSON file is the `record` field of `UsedVersionFile`;
  - a table file is its sequence of lines;
  - each transformer's data frame is a sequence of records.
- RowDelta.SingleTablePipeline: returns the unread lines rather than a parsed
  data frame. It does not model `read_csv` column parsing, `usecols` or the
  separator.
- RowDelta.GetNumberOfRows: counts the elements of the line sequence. How a
  file splits into lines (a missing final newline, `\r`) is not modelled.
- Keys.GenerateId: `\w` and `str.lower` are parameters (`UnicodeDb`), not the
  Unicode tables. `str.lower` is modelled as one character to one character,
  so the few characters it expands (such as `İ`) are not captured, and
  neither is context-dependent lowering: `str.lower` turns `Σ` into `ς` at
  the end of a word and into `σ` elsewhere.
- Transformers.TimeBatch: the `np.int32` cast is not modelled. Integers are
  unbounded, so the wrap-around of out-of-range years is not captured. The
  `reset_index` column is dropped by the reindex and is not modelled.
- Transformers.AttendanceBatch: requires `AttendanceDefined`. Every row of
  the merged frame must have matched a competition with a city and a
  countryId, and no competition may lack day, month or year. The first
  condition fails exactly when the source raises on `.lower()` of NaN.
  `Warehouse.Store.AttendanceDataPreparation` models that raise.
- Warehouse.Store.AttendanceDataPreparation: requires `CompetitionsDated`.
  When a competition lacks day, month or year, pandas reads that date column
  as floats. Every Time_id built from it then changes (`1.0_2_2020`), so it
  matches no Time Id. The undated competition's own Time_id holds `nan` and
  survives dropna. Those keys are not modelled.
- Transformers.AttendanceKeys: requires `CompetitionsDated`, for the same
  reason. So do `AttendanceKeySound`, `AttendanceKeyComplete` and
  `AttendanceTimeIdsInTime`.
- Warehouse.Store: which exception is raised (ValueError, AttributeError) is
  not modelled, only that one escapes before the insert.
- Competition and Puzzle: `astype(str)` is the identity here, because the
  modelled columns are already text.
- Each transformer's in-place column assignments on its data frame are
  modelled as one function building the appended rows, not step by step.
- Warehouse.Store: `to_sql` is modelled as an all-or-nothing append decided
  by `writeSucceeds`. The logged warning is not modelled. Uniqueness across
  runs is not modelled: deduplication happens only within a batch, and the
  tables are append-only.
- Negative recorded line counts are not modelled: the counts map holds
  natural numbers, as `get_number_of_rows` writes them.
- Attendance's `Localization_id` is built from `countryId`, while
  Localization's `Id` is built from the country name. The model keeps the
  two derivations separate and proves no link between them.
