# log-analyzer, modelled in Dafny

log-analyzer pulls log records from a source and feeds them to an analyzer
that aggregates them into reports. The source is the Loggly or Logly HTTP API,
or an exported CSV file. Fetching and analyzing are joined by a queue.

- A **fetcher** puts data items on the queue. A fetcher that knows when it is
  done posts a single `None` sentinel last and sets its `finished` flag.
  - `LogglyFetcher` cuts a time range into 5-minute windows. It gathers them in
    batches of `maxConcurrency` windows. For each window it follows the
    `next` links page by page, retrying each request.
  - `LoglyFetcher` fetches 5-second windows one after another and posts no
    sentinel.
  - `CsvFetcher` maps every row of a CSV file to a record through its
    subclass's `getLineData`. `BodyErrorFetcher` maps rows to `BodyError`
    records and `DailyTotalFetcher` maps them to `DailyTotal` records.
- An **analyzer** consumes the items.
  - `BodyErrorAnalyzer` groups error records by a normalized category. It
    counts them per category, per day, and per category and day, and keeps
    the submission totals per day. From these counters it builds three
    reports: categories by descending count, and per-day counts and
    percentages with the dates in ascending order.
  - `SessionAnalyzer` counts the `sid` query parameter of every logged
    request. It also cross-tabulates the `sid` by the two special
    `deviceId` values `{PSID}` and `channel`.

The model works on values:

- The queue is a `seq` of slots, `Put(item)` or `Sentinel`. It records
  everything put on it.
- Timestamps are integers in microseconds.
- A CSV file is the sequence of its rows, each a map from column header to
  cell text.
- The remote API is abstracted:
  - for Loggly, a window is a chain of page requests, and each request is a
    sequence of attempts that fail or return a page;
  - for Logly, a window either yields an events response or fails.
- An exception is an `Err`/`Fail` result.

The fetchers and the analyzers are classes whose methods update their fields
(the queue, the `finished` flag, the counter maps and the date set). Each
method is proved against a specification function: the counters after
`putError` are `Record(old counters)`, and what a fetch puts on the queue is
`Puts` of a function of its inputs. The properties are proved about those
functions and kept as class invariants (`Valid`):

- the counters sum to the number of recorded errors, and a category's counter
  is the sum of its per-day counters;
- no `sid` has more `{PSID}` plus `channel` counts than counts overall;
- `finished` implies that the sentinel has been posted.

Modules:

- `Common`: `Option`, `Result`, `Outcome`.
- `Text`: `strip`, `split(d)[0]`, ASCII `lower`, `replace`, string order.
- `Counting`: `dict.get(k, 0) + 1` and the sum of a map's values.
- `Sorting`: `sorted` by count descending, and sorted strings.
- `TimeWindows`: window partition and batching.
- `Fetching`, `CsvFetching`, `Loggly`, `Logly`, `BodyErrorRecords`,
  `DailyTotalRecords`, `ErrorAnalysis`, `SessionAnalysis`: one per source
  file.

## Model

| member | source | states |
|---|---|---|
| Text.Strip | analyzer/body_error.py:87 | `s.strip(c)`: the result is the part of `s` between a run of `c` at the front and a run at the back, and it neither starts nor ends with `c`; text that already does neither is returned unchanged |
| Text.StripFramed | analyzer/body_error.py:87 | the text left after trimming both ends is the part of `s` between its leading and its trailing run of `c` |
| Text.BeforeFirst | analyzer/body_error.py:88-89 | `s.split(d)[0]`: the longest prefix without `d`; it is followed by `d` in `s` unless it is all of `s` |
| Text.FirstField | analyzer/body_error.py:78-89 | `s.strip(c).split(d)[0]`, and `""` for `""`: never contains `d`; otherwise it is the longest prefix of the stripped text before its first `d` |
| Text.FirstFieldOfWrapped | analyzer/body_error.py:80-82 | for text without `c` whose first `d` is at `i`, the first `d`-field of the text, bare or wrapped in `c`, is the text before `i` |
| Text.Lower | analyzer/body_error.py:52 | `str.lower` on ASCII: same length, each letter `A`-`Z` lowered and every other character kept |
| Text.ReplaceAll | fetcher/fetcher.py:46 | `s.replace(pat, rep)`, left to right without overlaps; specified by Text.ReplaceAllAbsent, Text.ReplaceAllSkip and Text.ReplaceAllSuffix |
| Text.ReplaceAllSkip | fetcher/fetcher.py:46 | text that does not start with the pattern's first character keeps that character and is replaced after it |
| Text.ReplaceAllAbsent | fetcher/fetcher.py:46 | `replace` leaves text without the pattern unchanged |
| Text.ReplaceAllSuffix | fetcher/fetcher.py:46 | text ending in the pattern, whose body lacks the pattern's first character, has just that suffix replaced |
| Text.BelowTotal | analyzer/body_error.py:113 | the string order that `sorted` uses is total |
| Text.BelowAntisymmetric | analyzer/body_error.py:113 | the string order is antisymmetric |
| Text.BelowTransitive | analyzer/body_error.py:113 | the string order is transitive |
| Counting.Bump | analyzer/body_error.py:54-55 | `d[k] = d.get(k, 0) + 1`: `k` becomes a key, its count is one more than before, every other entry is unchanged |
| Counting.SumBump | analyzer/body_error.py:54-55 | one increment raises the sum of the map's counts by exactly one |
| Counting.SumRemove | analyzer/body_error.py:54-55 | a map's sum is one entry's count plus the sum of the others |
| Sorting.InsertByCount | analyzer/body_error.py:102 | inserting into a list sorted by non-increasing count keeps it sorted and adds exactly that entry |
| Sorting.SortByCount | analyzer/body_error.py:102 | `sorted(..., key=count, reverse=True)`: non-increasing counts, and a permutation of the input |
| Sorting.Entries | analyzer/body_error.py:102 | `dict.items()`: one entry per key, with that key's count, and nothing else |
| Sorting.ByCountDesc | analyzer/session.py:70 | the items of a map, exactly, ordered by non-increasing count |
| Sorting.InsertAscending | analyzer/body_error.py:113 | inserting a new string into an ascending list keeps it ascending, one longer, with exactly the old strings and the new one |
| Sorting.SortedStrings | analyzer/body_error.py:113 | `sorted(set)`: strictly ascending, as long as the set, with exactly the set's strings |
| TimeWindows.Windows | fetcher/loggly.py:84-93 | the windows `[s, min(s + delta, end))` for `s = start, start + delta, …` while `s < end`; none for an empty range; specified by the lemmas below |
| TimeWindows.WindowsShape | fetcher/loggly.py:84-93 | the windows `[s, min(s+delta, end))`: none exactly when `start >= end`; the first starts at `start` and the last ends at `end`; each is non-empty, inside the range and at most `delta` long; all but the last are exactly `delta` long and end where the next starts |
| TimeWindows.WindowsEnds | fetcher/loggly.py:84-93 | no windows exactly for an empty range; otherwise the first starts at `start` and the last ends at `end` |
| TimeWindows.WindowsInside | fetcher/loggly.py:84-93 | each window is non-empty, inside `[start, end)` and at most `delta` long |
| TimeWindows.WindowsSteps | fetcher/loggly.py:84-93 | all windows but the last are exactly `delta` long and each ends where the next starts |
| TimeWindows.WindowsCover | fetcher/loggly.py:89-93 | every instant of `[start, end)` lies in some window |
| TimeWindows.WindowsDisjoint | fetcher/loggly.py:89-93 | windows come in time order and do not overlap, so each instant is covered once |
| TimeWindows.FlattenAppend | fetcher/loggly.py:94-99 | flushing one more batch appends its windows after those of the earlier batches |
| TimeWindows.BatchSize | fetcher/loggly.py:94 | a batch is gathered when it holds `maxConcurrency` tasks, and never with fewer than one |
| Fetching.Fetcher.constructor | fetcher/fetcher.py:9-27 | the caller's queue, `finished` false, concurrency 8 and 3 retries by default |
| Fetching.Fetcher.IsFinished | fetcher/fetcher.py:29-35 | returns `finished`; when it is true, the sentinel is on the queue |
| Fetching.Fetcher.Done | fetcher/fetcher.py:66-71 | appends exactly one sentinel and then sets `finished`, keeping "finished implies sentinel queued" |
| Fetching.DataCount | fetcher/csv_fetcher.py:34-38 | the number of data items of a queue; it equals the queue's length exactly when no sentinel is on it |
| Fetching.DataCountAppend | fetcher/csv_fetcher.py:34-38 | data items of two queue segments add up |
| Fetching.PutsAt | fetcher/csv_fetcher.py:34-37 | putting items in order puts item `i` at position `i`, and no sentinel |
| Fetching.PutsAppend | fetcher/csv_fetcher.py:34-37 | putting two lists one after the other is putting their concatenation |
| Fetching.GetUtcStr | fetcher/fetcher.py:37-46 | the `+00:00` to `Z` rewrite of the ISO text; specified by Fetching.GetUtcStrUtc and Fetching.GetUtcStrOtherOffset |
| Fetching.GetUtcStrUtc | fetcher/fetcher.py:37-46 | a timestamp text ending in `+00:00` ends in `Z` instead, and the rest of its text is kept |
| Fetching.GetUtcStrOtherOffset | fetcher/logly.py:31-32 | timestamp text without `+00:00` is left unchanged |
| CsvFetching.Get | fetcher/body_error.py:13-15 | `line.get(key, default)` |
| CsvFetching.MapRows | fetcher/csv_fetcher.py:34-37 | the records of the rows in file order, up to the first row whose mapping raises; specified by CsvFetching.MapRowsOrder |
| CsvFetching.MapRowsStep | fetcher/csv_fetcher.py:34-37 | one row of the fetch loop: a row whose mapping raises ends the run with the records so far; otherwise its record follows them |
| CsvFetching.MapRowsOrder | fetcher/csv_fetcher.py:34-37 | the records are `getLineData` of the first rows in file order; the run completes exactly when every row maps, with one record per row; otherwise it stopped at the first row that raised |
| CsvFetching.CsvQueueShape | fetcher/csv_fetcher.py:34-38 | a completed run posts one data item per row, then exactly one sentinel, last; an empty file posts only the sentinel |
| CsvFetching.CsvFetcher.constructor | fetcher/csv_fetcher.py:14-24 | a fresh base fetcher on the caller's queue with the defaults, and the file and row mapper kept |
| CsvFetching.CsvFetcher.Fetch | fetcher/csv_fetcher.py:26-38 | the queue gains the mapped records in file order, followed by the sentinel and `finished` exactly when no row raised; the time range plays no part |
| BodyErrorRecords.GetLineData | fetcher/body_error.py:12-20 | each field is its column's text, or `""` when the row lacks that column |
| BodyErrorRecords.GetLineDataOnlyNamedColumns | fetcher/body_error.py:12-20 | rows that agree on the three named columns give the same record |
| BodyErrorRecords.BodyErrorRowsAllMap | fetcher/body_error.py:12-20 | this mapper never raises, so a fetch maps every row, in order, and always ends with the sentinel |
| DailyTotalRecords.ParseInt | fetcher/daily_totals.py:13 | `int(text)` succeeds exactly on an optional sign followed by one or more decimal digits |
| DailyTotalRecords.FormatNatValue | fetcher/daily_totals.py:13 | the decimal digits of `n` read back as `n` |
| DailyTotalRecords.ParseFormatInt | fetcher/daily_totals.py:13 | `int(str(n)) == n` for every integer |
| DailyTotalRecords.GetLineData | fetcher/daily_totals.py:11-17 | the date is the `time` column or `""`; the total is `int` of the `value` column or of `"0"`; a value that is not an integer raises |
| DailyTotalRecords.GetLineDataMissingValue | fetcher/daily_totals.py:13 | a row without `value` has total 0 |
| DailyTotalRecords.GetLineDataValue | fetcher/daily_totals.py:13 | a row whose `value` is the decimal text of `n` has total `n` |
| DailyTotalRecords.GetLineDataOnlyNamedColumns | fetcher/daily_totals.py:11-17 | rows that agree on `time` and `value` give the same result |
| Loggly.FirstSuccess | fetcher/loggly.py:41-52 | the first successful attempt in a range, if any; every earlier attempt in the range failed |
| Loggly.FetchResult | fetcher/loggly.py:41-52 | what `_fetchJson` returns: the page of the first successful attempt among attempts `0 .. maxRetries - 2`, or `None`; specified by Loggly.FirstSuccess |
| Loggly.LogglyFetcher.FetchJson | fetcher/loggly.py:35-52 | at most `maxRetries - 1` attempts; the page of the first successful one, all earlier ones having failed; `None` only after all `maxRetries - 1` attempts failed |
| Loggly.Paginate | fetcher/loggly.py:66-72 | what `_fetchTimeRange` posts for one window and whether it completes; specified by Loggly.PaginatePosts, Loggly.PaginateLinks and Loggly.PaginateEnd |
| Loggly.PaginateFollow | fetcher/loggly.py:66-72 | a page with a `next` link is followed by the next request |
| Loggly.PaginateStep | fetcher/loggly.py:66-72 | one turn of the `while url` loop: a failed request ends the window unfinished, a page without `next` ends it finished, any other page is posted and followed |
| Loggly.PaginatePosts | fetcher/loggly.py:66-72 | a window posts the `events` of its successive pages, in page order, one item per page |
| Loggly.PaginateLinks | fetcher/loggly.py:66-72 | every posted page but the last carried a `next` link |
| Loggly.PaginateEnd | fetcher/loggly.py:66-72 | a window completes exactly when it reaches a page without `next`; otherwise it raised at the request right after the pages it posted |
| Loggly.FetchAll | fetcher/loggly.py:94-101 | what the windows post, fetched in order, and whether all complete; specified by Loggly.FetchAllOk, Loggly.FetchAllAppend and Loggly.FetchAllStops |
| Loggly.FetchUpToStops | fetcher/loggly.py:94-101 | once a window has raised, later windows post nothing |
| Loggly.FetchUpToPrefix | fetcher/loggly.py:94-101 | only the windows fetched so far decide what has been posted |
| Loggly.FetchAllSnoc | fetcher/loggly.py:94-101 | one more window adds its pages after the others, unless a window has already raised |
| Loggly.FetchAllStops | fetcher/loggly.py:94-101 | after a window has raised, further windows change nothing |
| Loggly.FetchAllAppend | fetcher/loggly.py:94-101 | fetching `a` and then `b` is fetching `a + b` |
| Loggly.FetchAllThen | fetcher/loggly.py:94-99 | after completed batches, the next batch's posts follow theirs and decide completion |
| Loggly.FetchUpToNext | fetcher/loggly.py:95 | fetching window `j` after the first `j` completed appends its pages, and it decides completion |
| Loggly.FetchUpToOk | fetcher/loggly.py:94-101 | the first `j` windows complete exactly when each of them does |
| Loggly.FetchAllOk | fetcher/loggly.py:94-101 | all windows complete exactly when each window's pagination does |
| Loggly.LogglyFetcher.constructor | fetcher/loggly.py:14-33 | a base fetcher on the caller's queue with the defaults (concurrency 8, 3 retries), 5-minute windows, URI, query, token and source group kept |
| Loggly.LogglyFetcher.PutData | fetcher/loggly.py:74-77 | the page's `events` list goes on the queue unchanged, as one item, and nothing else changes |
| Loggly.LogglyFetcher.FetchTimeRange | fetcher/loggly.py:54-72 | the queue gains exactly the window's paginated `events`, in page order; it raises exactly when pagination stops at a failed request |
| Loggly.LogglyFetcher.Gather | fetcher/loggly.py:95 | gathering a batch posts what its windows post, in window order; it raises exactly when one window does |
| Loggly.LogglyFetcher.GatherNext | fetcher/loggly.py:95 | one task of a batch runs: the queue gains what the first `j + 1` windows post, and it raises exactly when they do not all complete |
| Loggly.LogglyFetcher.Flush | fetcher/loggly.py:94-99 | the batch is gathered after the earlier batches, and its windows are appended to them |
| Loggly.LogglyFetcher.FinishFetch | fetcher/loggly.py:100-102 | the leftover tasks are gathered, and only then is the sentinel posted and `finished` set, exactly when nothing raised |
| Loggly.LogglyFetcher.Schedule | fetcher/loggly.py:89-99 | the window `[start, min(start + delta, end))` becomes a task, and a full batch is gathered, keeping the loop state: earlier batches full and posted, fewer than `maxConcurrency` tasks pending |
| Loggly.LogglyFetcher.GatherWindows | fetcher/loggly.py:89-99 | the window loop: it stops at the first raising window with its posts queued, or it ends with all windows split into full gathered batches and a partial pending batch |
| Loggly.LogglyFetcher.Fetch | fetcher/loggly.py:79-102 | the queue gains the `events` of every window's pages in window and page order; then the sentinel is posted and `finished` set, exactly when nothing raised (an empty range posts only the sentinel); the batches are the windows, split into full batches of `maxConcurrency` except the last |
| Logly.Sequential | fetcher/logly.py:72-75 | what the windows post, fetched one after another, and whether all succeed; specified by Logly.SequentialOrder |
| Logly.SequentialStep | fetcher/logly.py:72-75 | one turn of the window loop: a failed window ends the fetch with what was posted so far, a successful one posts its events and moves on by `delta` |
| Logly.SequentialOrder | fetcher/logly.py:67-75 | the posted event lists are those of the first windows, in window order; the fetch completes exactly when every window succeeds, and otherwise stops at the first that failed |
| Logly.PutsKeepSentinel | fetcher/logly.py:58-65 | putting event lists never adds a sentinel |
| Logly.LoglyFetcher.constructor | fetcher/logly.py:11-29 | the given queue and credentials kept, `intervalSecs` 5 |
| Logly.LoglyFetcher.PutData | fetcher/logly.py:58-65 | warns exactly when `total_events > 5000`, and in every case puts the `events` list unchanged |
| Logly.LoglyFetcher.FetchTimeRange | fetcher/logly.py:34-56 | a successful window posts its events, a failed request raises and posts nothing |
| Logly.LoglyFetcher.FetchNext | fetcher/logly.py:72-75 | one turn of the window loop: a failed window ends the fetch with what was posted so far; a successful one posts its events and the fetch goes on from the next window |
| Logly.LoglyFetcher.Fetch | fetcher/logly.py:67-75 | the queue gains the events of the windows of `[start, end)` (step `intervalSecs`, default 5), in window order, up to the first failure; an empty range posts nothing, whatever the interval; a sentinel is on the queue afterwards only if it was before |
| ErrorAnalysis.Normalize | analyzer/body_error.py:84-89 | Text.FirstField with `"` and `:`: `""` for `""`; otherwise the quote-stripped text up to its first `:`, so never containing `:` |
| ErrorAnalysis.NormalizeKeepsPlain | analyzer/body_error.py:87-89 | text without `:` that neither starts nor ends with `"` is its own category |
| ErrorAnalysis.NormalizeNoLeadingQuote | analyzer/body_error.py:87 | a category never starts with `"` |
| ErrorAnalysis.NormalizeIdempotentIff | analyzer/body_error.py:84-89 | normalizing a category again changes nothing exactly when it does not end with `"` |
| ErrorAnalysis.NormalizeAt | analyzer/body_error.py:84-89 | a message whose first `:` is at `i` is categorized by the text before it, quoted or not |
| ErrorAnalysis.GetDate | analyzer/body_error.py:69-82 | Text.FirstField with `"` and `T`: `""` for `""`; otherwise the quote-stripped text up to its first `T`, so never containing `T` |
| ErrorAnalysis.GetDateIso | analyzer/body_error.py:69-82 | an ISO timestamp, quoted or not, gives the calendar date before its `T` |
| ErrorAnalysis.CategoryKey | analyzer/body_error.py:52-53 | every case variant of `error` is keyed `"error"`; any other text keeps its own key |
| ErrorAnalysis.CategoryKeyFolded | analyzer/body_error.py:52-53 | the only key that is a case variant of `error` is `"error"` |
| ErrorAnalysis.CategoryKeyGroupsVariants | analyzer/body_error.py:52-53 | `Error` and `ERROR` are keyed `"error"` |
| ErrorAnalysis.CategoryKeyKeepsOthers | analyzer/body_error.py:52-53 | `CustomError` keeps its own key |
| ErrorAnalysis.ErrorOf | analyzer/body_error.py:38-40 | the normalized error attribute when it is not empty, else the normalized message; empty exactly when both are |
| ErrorAnalysis.GetPercent | analyzer/body_error.py:91-97 | 0 when the count is 0 or the day's total is missing or 0; otherwise the quotient, whose product with the total is the count |
| ErrorAnalysis.RecordEffect | analyzer/body_error.py:50-67 | `Record`, the counters of one `putError`: one more for the category, for the category on that day and for the day; the day becomes an error date; no other counter changes |
| ErrorAnalysis.EmptyConsistent | analyzer/body_error.py:23-31 | fresh counters are consistent with zero errors |
| ErrorAnalysis.RecordConsistent | analyzer/body_error.py:50-67 | recording an error keeps the invariant, one error further: both the category counts and the day totals sum to the number of errors, and a category's count is the sum of its per-day counts |
| ErrorAnalysis.RowDatesRecorded | analyzer/body_error.py:58-61 | a day counted for some category is an error date |
| ErrorAnalysis.DailyRow | analyzer/body_error.py:121-126 | the count row of a category: the label column, and exactly its dates, each with its count |
| ErrorAnalysis.PercentRow | analyzer/body_error.py:128-133 | the percentage row of a category: the label column, and exactly its dates, each with its share of the day's submissions |
| ErrorAnalysis.BodyErrorAnalyzer.constructor | analyzer/body_error.py:12-31 | empty counters, consistent with zero errors; output file names kept |
| ErrorAnalysis.BodyErrorAnalyzer.PutError | analyzer/body_error.py:50-67 | the counters become `Record` under the error's category, the invariant holds one error further, and the submission totals are untouched |
| ErrorAnalysis.BodyErrorAnalyzer.CountError | analyzer/body_error.py:54-67 | the counter updates for a category key, proved equal to `Record` and invariant-preserving |
| ErrorAnalysis.BodyErrorAnalyzer.Analyze | analyzer/body_error.py:33-48 | a record with an error is recorded under its day and category; a record without one, or a falsy value, changes nothing; a daily total sets that day's submission total; anything else raises and changes nothing |
| ErrorAnalysis.BodyErrorAnalyzer.ReportRows | analyzer/body_error.py:119-133 | one count row and one percentage row per category, in category order |
| ErrorAnalysis.BodyErrorAnalyzer.DumpResult | analyzer/body_error.py:99-154 | categories exactly with their counts, by non-increasing count; header = label column then exactly the error dates, ascending; one count and one percentage row per category in that order; every row key is a header column |
| SessionAnalysis.GetField | analyzer/session.py:45-50 | `j.get(key, default)`: the field or the default on an object, and raises on anything else |
| SessionAnalysis.QueryParams | analyzer/session.py:45-50 | `item.get("event", {}).get("json", {}).get("req", {}).get("queryParams", {})`, raising where a level is not an object; built from SessionAnalysis.GetField |
| SessionAnalysis.Classify | analyzer/session.py:42-55 | a falsy item is skipped; a counted item is truthy and has a hashable `sid` |
| SessionAnalysis.ClassifyCounts | analyzer/session.py:45-56 | any truthy item whose query parameters are a non-empty object is counted under its `sid` and `deviceId`, each `""` when missing |
| SessionAnalysis.ClassifySkipsEmpty | analyzer/session.py:45-52 | any item whose query parameters are empty, missing, `None` or `""` is skipped |
| SessionAnalysis.CountItems | analyzer/session.py:42-60 | the item loop over one event list, from given counters, up to the first item that raises; specified by SessionAnalysis.CountItemsBounded and SessionAnalysis.CountItemsSum |
| SessionAnalysis.CountBatches | analyzer/session.py:37-62 | the batch loop over the event lists, skipping falsy ones; specified by SessionAnalysis.CountBatchesFalsy, SessionAnalysis.CountBatchesBounded and SessionAnalysis.CountBatchesSum |
| SessionAnalysis.CountItem | analyzer/session.py:53-60 | one counted item: `sids[sid]` +1, `psidSids[sid]` +1 only for `{PSID}`, `channelSids[sid]` +1 only for `channel`, at most one device counter changes, nothing else changes |
| SessionAnalysis.CountBatchesFalsy | analyzer/session.py:39-41 | `None` and empty event lists change no counter |
| SessionAnalysis.CountItemBounded | analyzer/session.py:53-60 | one counted item keeps `psidSids[k] + channelSids[k] <= sids[k]` for every key |
| SessionAnalysis.CountItemsBounded | analyzer/session.py:42-60 | so does a whole event list |
| SessionAnalysis.CountBatchesBounded | analyzer/session.py:37-62 | so do all the event lists |
| SessionAnalysis.CountItemsOk | analyzer/session.py:42-60 | whether an event list raises does not depend on the counters |
| SessionAnalysis.CountItemsSum | analyzer/session.py:42-60 | the sum of `sids` grows by the number of items counted |
| SessionAnalysis.CountBatchesSum | analyzer/session.py:37-62 | over all event lists, the sum of `sids` grows by the number of items counted |
| SessionAnalysis.SessionAnalyzer.constructor | analyzer/session.py:9-24 | empty counters, which satisfy the bound invariant |
| SessionAnalysis.SessionAnalyzer.CountBatch | analyzer/session.py:42-60 | the item loop over one event list equals `CountItems`, keeps the bound invariant, and raises exactly when an item does |
| SessionAnalysis.SessionAnalyzer.AnalyzeData | analyzer/session.py:37-62 | the batch loop equals `CountBatches`: falsy lists skipped, the first raising item ends it, the bound invariant kept |
| SessionAnalysis.SessionAnalyzer.OutputResult | analyzer/session.py:64-76 | for each of the three counters: its items exactly, by non-increasing count; `count` = number of keys; `countIncludingEmpty` = that plus the count of `""` |

## Left out

- Concurrency: `asyncio.gather`, the connector limit, `asyncio.sleep` back-off
  and queue blocking. The windows of one batch are fetched one after another
  in window order.
- Loggly.LogglyFetcher.Gather: with real concurrency, the pages of the windows
  in one batch interleave on the queue, and one raising window does not stop
  its siblings. The model posts them in window order and stops at the first
  failure.
- HTTP (aiohttp, `raise_for_status`, headers, query parameters, the `rsid`
  indirection of Logly): the remote side is an input function of the window.
- Loggly.LogglyFetcher.Fetch: it requires every window's page chain to end with
  a page without `next` (`ClosedChain`). A chain of `next` links that never
  ends would keep the Python loop running forever, and the model has no such
  behaviour.
- Logly.LoglyFetcher.Fetch: on a non-empty range it requires
  `intervalSecs > 0`, because with zero or a negative interval the Python loop
  never ends there. An empty range is accepted with any interval and posts
  nothing.
- CSV reading and writing and `csv.field_size_limit`: the rows come in as a
  sequence of maps, and the reports are returned as values.
- Logging and `json.dumps` of the reports, including the date-totals log line
  of `dumpResult`.
- `datetime.isoformat`: only the `+00:00` to `Z` rewrite is modelled on
  strings.
- ErrorAnalysis.GetPercent: returns the exact quotient as a `real`;
  `round(..., 2)` and floating point are not modelled.
- DailyTotalRecords.ParseInt: accepts only a sign and ASCII digits. Python's
  `int()` also accepts surrounding whitespace, `_` separators and non-ASCII
  digits.
- SessionAnalysis.Classify: JSON numbers, booleans and arrays are not among
  the modelled values.
- The queue-wait loop of `analyzeData`: the model counts a given sequence of
  event lists. That loop calls `isFinished` on a `LoglyFetcher`, which has no
  such method and never posts a sentinel. The waiting at
  analyzer/session.py:38-39 and `SessionAnalyzer.analyze` are not part of this
  model.
- Sorting.SortByCount: it orders by count only, as `sorted` does. The relative
  order of equal counts, which Python's stable sort takes from dict insertion
  order, is not specified.
- Defects in object construction are modelled as evidently intended:
  - `super.__init__` (fetcher/loggly.py:23) is taken as calling the base
    constructor;
  - the trailing comma that makes `intervalSecs` a tuple (fetcher/loggly.py:33)
    is taken as 300 seconds;
  - the `resulQueue` field name (fetcher/fetcher.py:24) is taken as the one
    queue;
  - `getData`, which does not await (fetcher/fetcher.py:48-54), is not part of
    this model.
- The controller, the entry scripts, the logging configuration, the abstract
  `Analyzer` interface and the tests are not part of this model.
