/**
 * The error-category aggregator of analyzer/body_error.py. Error-log records
 * are grouped by their normalized error text, counted per category, per day
 * and per category and day; submission totals per day are kept beside them;
 * the report rows are built from these counters. Writing the CSV files and
 * logging are not modelled: the report is returned as values.
 */
module ErrorAnalysis {
  import opened Common
  import opened Text
  import opened Counting
  import opened Sorting
  import opened BodyErrorRecords
  import opened DailyTotalRecords

  /** The label column of the per-day reports. */
  const ERROR_TYPE_FIELD := "error type/datetime"

  /**
   * `normalize`: the text before the first `:` of the error with its
   * surrounding double quotes removed; `""` for an empty error.
   */
  function Normalize(error: string): string
  {
    FirstField(error, '"', ':')
  }

  /** A message with no `:` and no surrounding quote is its own category. */
  lemma NormalizeKeepsPlain(error: string)
    requires ':' !in error
    requires error == [] || (error[0] != '"' && error[|error| - 1] != '"')
    ensures Normalize(error) == error
  {
  }

  /** The text of a category never starts with a quote. */
  lemma NormalizeNoLeadingQuote(error: string)
    ensures Normalize(error) == [] || Normalize(error)[0] != '"'
  {
    if error != [] && Normalize(error) != [] {
      var t := Strip(error, '"');
      assert Normalize(error)[0] == t[0];
    }
  }

  /**
   * Normalizing a second time changes nothing exactly when the first result
   * does not end with a quote: `ab":c` normalizes to `ab"`, and that to `ab`.
   */
  lemma {:induction false} NormalizeIdempotentIff(error: string)
    ensures var r := Normalize(error);
      Normalize(r) == r <==> r == [] || r[|r| - 1] != '"'
  {
    var r := Normalize(error);
    NormalizeNoLeadingQuote(error);
    if r != [] && r[|r| - 1] == '"' {
      var left := TrimLeft(r, '"');
      assert left == r;
      var t := TrimRight(left, '"');
      assert |t| < |r|;
      assert |Normalize(r)| < |r|;
    } else if r != [] {
      assert Strip(r, '"') == r;
    }
  }

  /**
   * A message whose first `:` is at position `i` is categorized by the text
   * before it, whether or not the message is wrapped in double quotes.
   */
  lemma NormalizeAt(error: string, i: nat)
    requires '"' !in error && i < |error| && error[i] == ':' && ':' !in error[..i]
    ensures Normalize(error) == error[..i]
    ensures Normalize("\"" + error + "\"") == error[..i]
  {
    FirstFieldOfWrapped(error, '"', ':', i);
  }

  /**
   * `getDate`: the part before the first `T` of a timestamp with its
   * surrounding double quotes removed; `""` for an empty timestamp.
   */
  function GetDate(dateStr: string): string
  {
    FirstField(dateStr, '"', 'T')
  }

  /**
   * An ISO-8601 timestamp whose first `T` is at position `i` gives the
   * calendar date before it, whether or not it is wrapped in double quotes.
   */
  lemma GetDateIso(stamp: string, i: nat)
    requires '"' !in stamp && i < |stamp| && stamp[i] == 'T' && 'T' !in stamp[..i]
    ensures GetDate(stamp) == stamp[..i]
    ensures GetDate("\"" + stamp + "\"") == stamp[..i]
  {
    FirstFieldOfWrapped(stamp, '"', 'T', i);
  }

  /** Every case variant of `error` is counted under `"error"`; any other text is its own key. */
  function CategoryKey(error: string): (key: string)
    ensures Lower(error) == "error" ==> key == "error"
    ensures Lower(error) != "error" ==> key == error
  {
    if Lower(error) == "error" then "error" else error
  }

  /** A category key is never a case variant of `error` other than `"error"` itself. */
  lemma CategoryKeyFolded(error: string)
    ensures Lower(CategoryKey(error)) == "error" ==> CategoryKey(error) == "error"
  {
  }

  /** `Error` and `ERROR` are grouped with `error`. */
  lemma CategoryKeyGroupsVariants()
    ensures CategoryKey("Error") == "error"
    ensures CategoryKey("ERROR") == "error"
  {
    assert Lower("Error") == "error";
    assert Lower("ERROR") == "error";
  }

  /** A longer name such as `CustomError` keeps its own key. */
  lemma CategoryKeyKeepsOthers()
    ensures CategoryKey("CustomError") == "CustomError"
  {
    assert |Lower("CustomError")| != |"error"|;
  }

  /**
   * The error of a record: its normalized error attribute when that is not
   * empty, else its normalized message.
   */
  function ErrorOf(b: BodyError): (r: string)
    ensures r == [] <==> Normalize(b.attributeError) == [] && Normalize(b.bodyMessage) == []
    ensures Normalize(b.attributeError) != [] ==> r == Normalize(b.attributeError)
  {
    var attributeError := Normalize(b.attributeError);
    if attributeError != [] then attributeError else Normalize(b.bodyMessage)
  }

  /**
   * `_getPercent`: the share of the day's submissions that the count makes up,
   * or 0 when the count is 0 or the day has no (or a zero) total.
   */
  function GetPercent(date: string, cnt: int, dateTotals: map<string, int>): (r: real)
    ensures cnt == 0 || Get(dateTotals, date) == 0 ==> r == 0.0
    ensures cnt != 0 && Get(dateTotals, date) != 0 ==> r * Get(dateTotals, date) as real == cnt as real
  {
    var dateTotal := Get(dateTotals, date);
    if cnt == 0 || dateTotal == 0 then 0.0 else cnt as real / dateTotal as real
  }

  /** The per-date counters of a category, `ErrDateCnts.get(error, {})`. */
  function DateCounts(errDateCnts: map<string, map<string, int>>, error: string): map<string, int>
  {
    if error in errDateCnts then errDateCnts[error] else map[]
  }

  /** The counters of the aggregator, as one value. */
  datatype Tally = Tally(
    errors: map<string, int>,
    errDateCnts: map<string, map<string, int>>,
    errorDates: set<string>,
    dateTotals: map<string, int>)

  /** How often `error` was recorded on `date`. */
  function CountOn(t: Tally, error: string, date: string): int
  {
    Get(DateCounts(t.errDateCnts, error), date)
  }

  /** The counters after `putError(date, error)` for an error of category `key`. */
  function Record(t: Tally, date: string, key: string): Tally
  {
    Tally(
      Bump(t.errors, key),
      t.errDateCnts[key := Bump(DateCounts(t.errDateCnts, key), date)],
      t.errorDates + {date},
      Bump(t.dateTotals, date))
  }

  /**
   * Recording counts one more for the category, for the category on that
   * day and for the day; the day becomes an error date. No other counter
   * changes.
   */
  lemma RecordEffect(t: Tally, date: string, key: string)
    ensures var r := Record(t, date, key);
      && (forall e :: Get(r.errors, e) == Get(t.errors, e) + (if e == key then 1 else 0))
      && (forall e, d :: CountOn(r, e, d) == CountOn(t, e, d) + (if e == key && d == date then 1 else 0))
      && (forall d :: Get(r.dateTotals, d) == Get(t.dateTotals, d) + (if d == date then 1 else 0))
      && r.errorDates == t.errorDates + {date}
      && r.errors.Keys == t.errors.Keys + {key}
      && r.errDateCnts.Keys == t.errDateCnts.Keys + {key}
      && r.dateTotals.Keys == t.dateTotals.Keys + {date}
  {
  }

  /**
   * The counters agree after `n` recorded errors: both the category counters
   * and the day counters sum to `n`; a category's counter is the sum of its
   * per-day counters; every day with a count is an error date and has a day
   * total.
   */
  ghost predicate Consistent(t: Tally, n: int)
  {
    && Sum(t.errors) == n
    && Sum(t.dateTotals) == n
    && t.errors.Keys == t.errDateCnts.Keys
    && t.dateTotals.Keys == t.errorDates
    && (forall e :: e in t.errDateCnts ==> Sum(t.errDateCnts[e]) == t.errors[e] && t.errDateCnts[e].Keys <= t.errorDates)
  }

  lemma EmptyConsistent()
    ensures Consistent(Tally(map[], map[], {}, map[]), 0)
  {
    var none: map<string, int> := map[];
    assert Sum(none) == 0;
  }

  /** Recording an error keeps the counters consistent, one call further. */
  lemma RecordConsistent(t: Tally, n: int, date: string, key: string)
    requires Consistent(t, n)
    ensures Consistent(Record(t, date, key), n + 1)
  {
    var r := Record(t, date, key);
    SumBump(t.errors, key);
    SumBump(t.dateTotals, date);
    var inner := DateCounts(t.errDateCnts, key);
    SumBump(inner, date);
    if key !in t.errDateCnts {
      assert Sum(inner) == 0;
    }
    assert r.errDateCnts[key] == Bump(inner, date);
  }

  /** A day with a count for some category is an error date. */
  lemma RowDatesRecorded(t: Tally, n: int, error: string, date: string)
    requires Consistent(t, n)
    requires date in DateCounts(t.errDateCnts, error)
    ensures date in t.errorDates
  {
  }

  /** The input of `analyze`: a falsy value, either record type, or anything else. */
  datatype Input = Falsy | BodyErrorData(record: BodyError) | DailyTotalData(total: DailyTotal) | Other

  /** One cell of a report row. */
  datatype Cell = Label(text: string) | Count(n: int) | Ratio(q: real)

  /**
   * A per-day count row: the category's count under each of its dates, and
   * the category under the label column (which wins should a date have the
   * label's text).
   */
  function DailyRow(error: string, dateCnts: map<string, int>): (row: map<string, Cell>)
    ensures ERROR_TYPE_FIELD in row && row[ERROR_TYPE_FIELD] == Label(error)
    ensures forall d :: d != ERROR_TYPE_FIELD ==> (d in row <==> d in dateCnts)
    ensures forall d :: d != ERROR_TYPE_FIELD && d in dateCnts ==> row[d] == Count(dateCnts[d])
  {
    (map d | d in dateCnts :: Count(dateCnts[d]))[ERROR_TYPE_FIELD := Label(error)]
  }

  /** A per-day percentage row: the category's share of each of its dates' submissions. */
  function PercentRow(error: string, dateCnts: map<string, int>, submitTotals: map<string, int>): (row: map<string, Cell>)
    ensures ERROR_TYPE_FIELD in row && row[ERROR_TYPE_FIELD] == Label(error)
    ensures forall d :: d != ERROR_TYPE_FIELD ==> (d in row <==> d in dateCnts)
    ensures forall d :: d != ERROR_TYPE_FIELD && d in dateCnts ==> row[d] == Ratio(GetPercent(d, dateCnts[d], submitTotals))
  {
    (map d | d in dateCnts :: Ratio(GetPercent(d, dateCnts[d], submitTotals)))[ERROR_TYPE_FIELD := Label(error)]
  }

  class BodyErrorAnalyzer {
    const csvErrorsOutputFile: string
    const csvErrDateCntsOutputFile: string
    const csvErrDatePercentageOutputFile: string
    /** Count per category. */
    var errors: map<string, int>
    /** Count per category and day. */
    var errDateCnts: map<string, map<string, int>>
    /** Every day with an error. */
    var errorDates: set<string>
    /** Count of errors per day. */
    var dateTotals: map<string, int>
    /** Submissions per day. */
    var dateSubmitTotals: map<string, int>
    /** How many errors were recorded. */
    ghost var calls: nat

    function Snapshot(): Tally
      reads this
    {
      Tally(errors, errDateCnts, errorDates, dateTotals)
    }

    ghost predicate Valid()
      reads this
    {
      Consistent(Snapshot(), calls)
    }

    constructor (csvErrorsOutputFile: string, csvErrDateCntsOutputFile: string, csvErrDatePercentageOutputFile: string)
      ensures Valid() && calls == 0
      ensures errors == map[] && errDateCnts == map[] && errorDates == {} && dateTotals == map[] && dateSubmitTotals == map[]
      ensures this.csvErrorsOutputFile == csvErrorsOutputFile
      ensures this.csvErrDateCntsOutputFile == csvErrDateCntsOutputFile
      ensures this.csvErrDatePercentageOutputFile == csvErrDatePercentageOutputFile
    {
      this.csvErrorsOutputFile := csvErrorsOutputFile;
      this.csvErrDateCntsOutputFile := csvErrDateCntsOutputFile;
      this.csvErrDatePercentageOutputFile := csvErrDatePercentageOutputFile;
      errors := map[];
      errDateCnts := map[];
      errorDates := {};
      dateTotals := map[];
      dateSubmitTotals := map[];
      calls := 0;
      EmptyConsistent();
    }

    /** `putError`: record one occurrence of `error` on `dateStr`, under its category. */
    method PutError(dateStr: string, error: string)
      requires Valid()
      modifies this
      ensures Valid() && calls == old(calls) + 1
      ensures Snapshot() == Record(old(Snapshot()), dateStr, CategoryKey(error))
      ensures dateSubmitTotals == old(dateSubmitTotals)
    {
      var key := error;
      if Lower(error) == "error" {
        key := "error";
      }
      CountError(dateStr, key);
    }

    /** The counter updates of `putError` for the category `key`. */
    method CountError(dateStr: string, key: string)
      requires Valid()
      modifies this
      ensures Valid() && calls == old(calls) + 1
      ensures Snapshot() == Record(old(Snapshot()), dateStr, key)
      ensures dateSubmitTotals == old(dateSubmitTotals)
    {
      ghost var before := Snapshot();
      errors := Bump(errors, key);
      errorDates := errorDates + {dateStr};
      var dateErrCnts := DateCounts(errDateCnts, key);
      errDateCnts := errDateCnts[key := Bump(dateErrCnts, dateStr)];
      dateTotals := Bump(dateTotals, dateStr);
      calls := calls + 1;
      assert Snapshot() == Record(before, dateStr, key);
      RecordConsistent(before, old(calls), dateStr, key);
    }

    /**
     * `analyze`: a record's error (if it has one) is recorded under the
     * record's day; a daily total sets that day's submission total; a falsy
     * value is ignored; anything else raises.
     */
    method Analyze(data: Input) returns (outcome: Outcome)
      requires Valid()
      modifies this
      ensures Valid()
      ensures outcome.Fail? <==> data.Other?
      ensures data.BodyErrorData? && ErrorOf(data.record) != [] ==>
        && Snapshot() == Record(old(Snapshot()), GetDate(data.record.date), CategoryKey(ErrorOf(data.record)))
        && calls == old(calls) + 1
      ensures !(data.BodyErrorData? && ErrorOf(data.record) != []) ==> Snapshot() == old(Snapshot()) && calls == old(calls)
      ensures dateSubmitTotals == if data.DailyTotalData?
        then old(dateSubmitTotals)[GetDate(data.total.date) := data.total.total]
        else old(dateSubmitTotals)
    {
      match data
      case Falsy =>
        outcome := Pass;
      case BodyErrorData(record) =>
        var dateStr := GetDate(record.date);
        var attributeError := Normalize(record.attributeError);
        var bodyMessage := Normalize(record.bodyMessage);
        var error := if attributeError != [] then attributeError else bodyMessage;
        if error != [] {
          PutError(dateStr, error);
        }
        outcome := Pass;
      case DailyTotalData(total) =>
        dateSubmitTotals := dateSubmitTotals[GetDate(total.date) := total.total];
        outcome := Pass;
      case Other =>
        outcome := Fail("invalid data type");
    }

    /**
     * The count row and the percentage row of each category of `errorRows`,
     * in that order (the loop over `sortedErrors` in `dumpResult`).
     */
    method ReportRows(errorRows: seq<Entry<string>>) returns (dailyRows: seq<map<string, Cell>>, percentRows: seq<map<string, Cell>>)
      ensures |dailyRows| == |errorRows| && |percentRows| == |errorRows|
      ensures forall i :: 0 <= i < |errorRows| ==> dailyRows[i] == DailyRow(errorRows[i].key, DateCounts(errDateCnts, errorRows[i].key))
      ensures forall i :: 0 <= i < |errorRows| ==>
        percentRows[i] == PercentRow(errorRows[i].key, DateCounts(errDateCnts, errorRows[i].key), dateSubmitTotals)
    {
      dailyRows := [];
      percentRows := [];
      for i := 0 to |errorRows|
        invariant |dailyRows| == i && |percentRows| == i
        invariant forall j :: 0 <= j < i ==> dailyRows[j] == DailyRow(errorRows[j].key, DateCounts(errDateCnts, errorRows[j].key))
        invariant forall j :: 0 <= j < i ==>
          percentRows[j] == PercentRow(errorRows[j].key, DateCounts(errDateCnts, errorRows[j].key), dateSubmitTotals)
      {
        var err := errorRows[i].key;
        var dateCnts := DateCounts(errDateCnts, err);
        dailyRows := dailyRows + [DailyRow(err, dateCnts)];
        percentRows := percentRows + [PercentRow(err, dateCnts, dateSubmitTotals)];
      }
    }

    /**
     * The rows `dumpResult` writes: the categories by non-increasing count;
     * the header, the label column then every error date in ascending order;
     * one count row and one percentage row per category, in the order of the
     * category rows. Every key of every row is a column of the header, so
     * writing the rows cannot fail.
     */
    method DumpResult() returns (errorRows: seq<Entry<string>>, header: seq<string>,
                                 dailyRows: seq<map<string, Cell>>, percentRows: seq<map<string, Cell>>)
      requires Valid()
      ensures ListsMap(errorRows, errors) && NonIncreasing(errorRows)
      ensures |header| == |errorDates| + 1 && header[0] == ERROR_TYPE_FIELD
      ensures Ascending(header[1..]) && forall d :: d in header[1..] <==> d in errorDates
      ensures |dailyRows| == |errorRows| && |percentRows| == |errorRows|
      ensures forall i :: 0 <= i < |errorRows| ==> dailyRows[i] == DailyRow(errorRows[i].key, DateCounts(errDateCnts, errorRows[i].key))
      ensures forall i :: 0 <= i < |errorRows| ==>
        percentRows[i] == PercentRow(errorRows[i].key, DateCounts(errDateCnts, errorRows[i].key), dateSubmitTotals)
      ensures forall i, d :: 0 <= i < |dailyRows| && d in dailyRows[i] ==> d in header
      ensures forall i, d :: 0 <= i < |percentRows| && d in percentRows[i] ==> d in header
    {
      errorRows := ByCountDesc(errors);
      var sortedErrorDates := SortedStrings(errorDates);
      header := [ERROR_TYPE_FIELD] + sortedErrorDates;
      assert header[1..] == sortedErrorDates;
      dailyRows, percentRows := ReportRows(errorRows);
      forall i, d | 0 <= i < |errorRows| && d in dailyRows[i]
        ensures d in header
      {
        if d != ERROR_TYPE_FIELD {
          RowDatesRecorded(Snapshot(), calls, errorRows[i].key, d);
        }
      }
      forall i, d | 0 <= i < |errorRows| && d in percentRows[i]
        ensures d in header
      {
        if d != ERROR_TYPE_FIELD {
          RowDatesRecorded(Snapshot(), calls, errorRows[i].key, d);
        }
      }
    }
  }
}
