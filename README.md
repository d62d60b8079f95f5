# Historical backfill job, modelled in Dafny

The job exports one SQL Server table, over a configured date range, to S3 in date-bounded
batches. It reads its settings. A cursor walks the range `[start_date, end_date]` in steps of
`batch_days_months` days or months. Each step makes one window `[cursor, min(cursor + step, end))`.

For each window the job:

- builds the range query,
- reads the rows,
- and, when rows came back, writes them to a local CSV, publishes it under
  `<path><start>_<end>_<epoch>_<count>.csv` and deletes the local copy.

When count tracking is on, each non-empty batch is also grouped by calendar date and
appended to a ledger. After the loop the ledger is summed per date. It is published as
`<path><count_file_name>` when it is not empty.

The model has one module per concern:

- `Dates`: calendar dates, the day and month offsets with their end-of-month fallback,
  `strftime('%Y-%m-%d')` and parsing it back.
- `Windowing`: the window sequence the loop visits.
- `Settings`: the `'None'`/empty sentinels, the batch unit and size defaults, the
  count-file switch and the credential precedence of `get_s3_client`.
- `Naming`: the SQL query, the local file name and the object keys, with a parser for keys.
- `Counting`: row extraction as a filter of a table snapshot, and the per-date count tables
  (`groupby(...).size()` and `groupby('date').sum()`) as sorted association lists.
- `Backfill` (module): `main`.
  - The method `RunJob` parses the settings and runs the batch loop (a `while` loop with
    its invariant) and the count-file step.
  - Its result is a trace of events: queried, staged, published, removed.
  - It is proved equal to the functional specification `BackfillSpec`.
- `RunProperties`: lemmas about that specification. Every row of the range is staged
  exactly once. Every window is queried in order. The count file holds the per-date counts
  of the range and does not depend on the batching. Window keys are distinct. The landing
  window only queries; an empty range does nothing.

The database, the clock and the uploads are not modelled as effects:

- The database is a snapshot `source: seq<Row>` and a read is `Extract`. The query fragment
  `query_param` sits in the FROM clause, after the table name (lines 54-56). It can add joins,
  aliases or table hints. So `source` stands for the rows of the table expression
  `<table_name> <query_param>`, and `Extract` only applies the date predicate to them.
- The clock is a parameter `clock: nat -> nat` giving the epoch seconds read for the i-th
  window.
- Staging, uploading and deleting are events in the returned trace.

Two facts about the code shape the model:

- The loop runs while `cursor <= end` (line 183). A cursor that lands exactly on the end date
  therefore queries one more window `[end, end)`. That window returns no rows and produces
  no file (`LandingOnLimit`, `LandingWindowOnlyQueried`).
- The batch size is never normalised. The value `int()` returns at line 174 is kept as it
  is, also when lines 165-166 fall back to months for an unrecognised `batch_type`. So a run
  needs a size of at least 1, and the model states that as a precondition.

## Model

| member | source | states |
|---|---|---|
| Naming.SqlQuery | historical_backfill_refactor.py:51-58 | the query starts with `SELECT * FROM <table>` and ends with the half-open date predicate; its length fixes how many characters lie between them: one plus the fragment's length when it is set, none when it is unset (`QueryParamInserted` states which characters: one space and the fragment) |
| Naming.ObjectKey | historical_backfill_refactor.py:61-62 | a window's key starts with the path prefix and ends in `.csv` |
| Naming.LocalFileName | historical_backfill_refactor.py:202 | the local CSV name ends in `.csv` |
| Naming.KeyExtendsFileName | historical_backfill_refactor.py:202-233 | a window's object key is its local file name with `_<row count>` inserted before the extension, under the path |
| Naming.CountKey | historical_backfill_refactor.py:257 | the count key is the path prefix followed by the count file name, with nothing in between |
| Dates.NextDay | historical_backfill_refactor.py:189 | the next day is a valid date after `d`, and no valid date lies between the two |
| Dates.AddDays | historical_backfill_refactor.py:189 | a day offset gives a valid date, strictly later when the offset is at least 1 (its steps are `NextDay`, and `AddDaysAdditive` shows they compose) |
| Dates.Format | historical_backfill_refactor.py:186 | `%Y-%m-%d` renders at least ten characters, with dashes before the two-digit month and day (`ParseFormat` inverts it) |
| Dates.ParseDate | historical_backfill_refactor.py:181 | a parsed date is a valid calendar date; `ParseFormat` reads back every rendered date |
| Windowing.Advance | historical_backfill_refactor.py:188-191 | one step of the cursor gives a valid date, strictly later when the size is at least 1 |
| Windowing.ClippedEnd | historical_backfill_refactor.py:193-199 | the window end is the earlier of the end date and the next step: it is one of the two and is not after either |
| Counting.Extract | historical_backfill_refactor.py:203-208 | a window's read returns at most the rows of the table; `ExtractCounts` pins down which rows |
| Backfill.WindowEvents | historical_backfill_refactor.py:216-238 | one pass gives one event when the window has no rows and four when it has; the first is the query of that window with its row count |
| Backfill.Finish | historical_backfill_refactor.py:246-261 | the count-file step gives three events when tracking is on and the ledger is not empty, and none otherwise (`RunProperties.CountFile` states which: stage the per-date sum, publish it under the count key, remove it) |
| Settings.BatchUnit | historical_backfill_refactor.py:162-168 | the unit is days exactly when the setting is `days`; unset or anything else means months |
| Settings.BatchSize | historical_backfill_refactor.py:170-174 | unset gives 1; otherwise the result is `int` of the text, and text that is not an integer is a `BadBatchSize` error |
| Settings.BatchSizeOfNumber | historical_backfill_refactor.py:174 | a size written as `str(n)` is read back as `n` |
| Settings.CountTracking | historical_backfill_refactor.py:159 | tracking is on exactly when the setting spells `true` in any mix of cases |
| Settings.SelectCredentials | historical_backfill_refactor.py:72-101 | a role other than `'None'` wins; otherwise a complete static key pair; otherwise the default chain (each branch as an if-and-only-if, with the values carried) |
| Settings.EmptyRoleIsAssumed | historical_backfill_refactor.py:74 | an empty role string is not the sentinel and still selects the assume-role branch |
| Dates.AddMonths | historical_backfill_refactor.py:191 | a month offset moves the month index by n and keeps the day, falling back to the last day of a shorter target month; it moves the date forward when n >= 1 |
| Dates.AddDaysAdditive | historical_backfill_refactor.py:189 | day offsets compose: n days then m days is n + m days |
| Dates.AddMonthsNotAdditive | historical_backfill_refactor.py:242-244 | month offsets do not compose: 31 January plus one month twice is 28 March, plus two months is 31 March |
| Dates.ParseFormat | historical_backfill_refactor.py:186 | reading back a rendered `%Y-%m-%d` date gives the date |
| Dates.FormatInjective | historical_backfill_refactor.py:186 | distinct dates render to distinct strings |
| Windowing.Windows | historical_backfill_refactor.py:183-244 | the windows lie between the cursor and the end date, each start <= end; there is a window exactly when the cursor is not after the end; the first starts at the cursor |
| Windowing.WindowEnds | historical_backfill_refactor.py:188-199 | each window ends one step after its start, clipped to the end date |
| Windowing.WindowsContiguous | historical_backfill_refactor.py:240-244 | each next window starts one full, unclipped step after the previous start, where the previous window ended; all but the last start before the end |
| Windowing.WindowStartsIncrease | historical_backfill_refactor.py:240-244 | window starts strictly increase |
| Windowing.LastWindow | historical_backfill_refactor.py:193-194 | the last window ends at the end date, and the next step passes it, which ends the loop |
| Windowing.LandingOnLimit | historical_backfill_refactor.py:183 | a window starting on the end date is the last one and is `[end, end)` |
| Windowing.MonthlyExample | historical_backfill_refactor.py:191-199 | monthly windows from 2023-01-01 to 2023-03-10, with the last one clipped |
| Windowing.DailyExample | historical_backfill_refactor.py:189-199 | daily windows from 2023-01-01 to 2023-01-03, ending with the landing window |
| Naming.QueryParamInserted | historical_backfill_refactor.py:51-58 | a set query fragment is inserted after one space between the table and the WHERE clause of the plain query, which is otherwise unchanged |
| Naming.UnsetQueryParams | historical_backfill_refactor.py:53 | `'None'` and the empty fragment give the same query |
| Naming.ParseObjectKeyRoundTrip | historical_backfill_refactor.py:61-62 | start, end, epoch and row count can all be read back from a window's object key |
| Naming.ObjectKeyInjective | historical_backfill_refactor.py:61-62 | two keys under one path are equal only when all four fields are |
| Counting.InRangeByDate | historical_backfill_refactor.py:54 | against midnight bounds, a timestamp is in `>= start AND < end` exactly when its calendar date is in `[start, end)` |
| Counting.ExtractCounts | historical_backfill_refactor.py:208 | a window's read returns each in-range row as often as the table holds it, and no other row |
| Counting.ExtractSplit | historical_backfill_refactor.py:54 | splitting a range at an inner date splits its rows, as a bag, between the two halves |
| Counting.ExtractEmptyRange | historical_backfill_refactor.py:193-194 | a range whose end is not after its start returns no rows |
| Counting.OccurrencesInRange | historical_backfill_refactor.py:54 | the rows of one day in a range are all that day's rows when the day is in range, else none |
| Counting.GroupByDate | historical_backfill_refactor.py:223 | the batch's count table is sorted by date with positive counts; each date's count is its number of rows; the counts add up to the batch size; it is empty exactly when the batch is |
| Counting.AddCountCounts | historical_backfill_refactor.py:250 | adding c rows to a date raises that date's count, and the total, by c and leaves every other count unchanged |
| Counting.SumByDate | historical_backfill_refactor.py:246-250 | the summed table is sorted, keeps every date's total from the accumulator and the overall total, and is empty exactly when the accumulator is |
| Counting.SortedCountsDetermine | historical_backfill_refactor.py:250 | two sorted tables of positive counts that agree on every date are equal |
| Counting.MergeTwiceDoubles | historical_backfill_refactor.py:227 | appending a batch's groups twice counts that batch twice: the ledger adds, it does not union |
| Backfill.Prepare | historical_backfill_refactor.py:150-183 | parsing succeeds exactly when the size and both dates parse, and the first error in the job's order is reported; the plan's size is the parsed size (1 when unset), its start and end are the parsed dates, the unit, count switch and credentials come from their selectors, and the table, fragment, column, count file name, bucket and path are passed through unchanged |
| Backfill.ExportWindow | historical_backfill_refactor.py:186-238 | one pass appends the window's query event and, only when rows came back, its staged, published and removed events; the ledger gets the window's date counts only when rows came back and tracking is on |
| Backfill.ExportWindows | historical_backfill_refactor.py:181-244 | the loop's trace and ledger are those of every window of the range, in order |
| Backfill.PublishCounts | historical_backfill_refactor.py:246-261 | after the loop the per-date sum of the ledger is staged, published under the count key and removed, only when tracking is on and the sum is not empty |
| Backfill.RunPlan | historical_backfill_refactor.py:181-261 | the trace of the loop followed by the count file is the specified run |
| Backfill.RunJob | historical_backfill_refactor.py:162-261 | `main` returns exactly `BackfillSpec`: the configuration error, or the run over the parsed plan |
| RunProperties.WindowsCoverRange | historical_backfill_refactor.py:183-244 | the windows' rows together are, as a bag, the rows of the whole range |
| RunProperties.LedgerCounts | historical_backfill_refactor.py:221-227 | the ledger holds, per date, the number of rows of the visited windows when tracking is on, and nothing when it is off |
| RunProperties.RowsExportedOnce | historical_backfill_refactor.py:181-244 | every row of `[start, end)` is staged exactly once over a run, and no other row is |
| RunProperties.EveryWindowQueried | historical_backfill_refactor.py:183-216 | every window is queried once, in order, including windows without rows |
| RunProperties.CountsPerDate | historical_backfill_refactor.py:221-250 | the count file is sorted with positive counts; each date's count is its number of source rows when tracking is on and the date is in range, else 0; the total is the number of rows exported |
| RunProperties.BatchingInvariance | historical_backfill_refactor.py:188-191 | two runs that differ only in batch unit and size have the same count table |
| RunProperties.CountFile | historical_backfill_refactor.py:246-259 | the count file is staged, published under `<path><count_file_name>` and removed exactly when tracking is on and the range has rows |
| RunProperties.WindowKeysDistinct | historical_backfill_refactor.py:233 | no two windows of a run are published under the same key |
| RunProperties.LandingWindowOnlyQueried | historical_backfill_refactor.py:237-238 | the window that starts on the end date is the last one; it has no rows and produces only its query event |
| RunProperties.EmptyRangeDoesNothing | historical_backfill_refactor.py:183 | a start date after the end date gives an empty trace: no query, no file |
| RunProperties.PublishedKeys | historical_backfill_refactor.py:233-258 | the keys a run publishes are each non-empty window's key in order, followed by the count key when the count file is written |
| RunProperties.CountTables | historical_backfill_refactor.py:246-255 | a run stages one count table, the final per-date sum, exactly when tracking is on and the range has rows, and none otherwise |

## Left out

- The SQL Server connection, `pd.read_sql`, boto3 (STS assume-role, the S3 client, upload) and the local file system are not modelled as I/O. The read is a filter of a table snapshot. Staging, uploading and removing are trace events. A missing local file at removal is not modelled.
- The clock (`time.time()`) is a parameter giving the epoch seconds for each window. The query timing and all log output are left out.
- Reading the configuration file and the command line is left out. `main` starts from the configuration's strings.
- CSV serialisation of the rows and of the count table is left out. A staged file is modelled by the rows or counts it holds. The `header=` flag is always true, because `total_file_size` is never updated.
- The exception handlers that print a traceback and exit are left out. Configuration errors are `Err` results. Failures of the database, upload and credentials cannot happen in the model.
- Backfill.RunJob: requires a batch size of at least 1 when the size parses. With a size of 0 the cursor never moves, so the loop never ends. With a negative size the cursor moves backwards. Every window `[cursor, cursor - k)` is then reversed and returns no rows. The loop ends only when the date offset crosses the earliest timestamp pandas can hold. That raises an exception, which line 262 catches, and the job exits with status 1. The model has neither the non-terminating loop nor the timestamp bound. The precondition also excludes runs of a size below 1 that do end. With the start after the end the loop never runs, and the job exits 0 having published nothing. With a date that does not parse, the job exits 1 at line 181 or 183. The same precondition is on Backfill.Prepare.
- Settings.BatchSize: models `int()` on an optionally signed run of ASCII digits only. Surrounding whitespace, digit-group underscores and non-ASCII digits, which Python also accepts, are treated as errors.
- Settings.CountTracking: `lower()` is modelled on ASCII letters only.
- Dates.ParseDate: accepts `<one or more digits>-MM-DD`, with years from 1 and no upper bound, so `5-01-01` and `10000-01-01` are read as dates. The other formats `pd.to_datetime` accepts are left out, and so are the timestamp bounds of pandas (years 1677–2262).
- Backfill.Prepare: an empty `start_date` or `end_date`, or the text `NaT` or `nan`, is a `BadDate` error in the model. In the job `pd.to_datetime` turns these into NaT. `NaT <= x` is false at line 183, so the loop never runs and the job exits 0 without publishing anything.
- Rows whose date column is NULL are left out. Every row has a date, and pandas' handling of NaT in `groupby` is not modelled.
- Row columns other than the date column are left out. They do not affect any decision of the job.
