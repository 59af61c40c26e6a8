/**
 * The CSV-file fetcher base of fetcher/csv_fetcher.py. The file is replaced
 * by the sequence of its data rows, each a map from column header to cell
 * text; the subclass hook `getLineData` is a function given to the fetcher,
 * and its `Err` result stands for an exception it raises.
 */
module CsvFetching {
  import opened Common
  import opened Fetching

  /** One data row of a `csv.DictReader`: column header to cell text. */
  type Row = map<string, string>

  /** `line.get(key, default)`. */
  function Get(line: Row, key: string, default: string): (v: string)
    ensures key in line ==> v == line[key]
    ensures key !in line ==> v == default
  {
    if key in line then line[key] else default
  }

  /** The records made from rows, and whether every row could be mapped. */
  datatype Mapped<T> = Mapped(items: seq<T>, ok: bool)

  /** Map the rows in file order; the first row whose mapping raises ends the run. */
  function MapRows<T>(getLineData: Row -> Result<T>, rows: seq<Row>): Mapped<T>
    decreases |rows|
  {
    if rows == [] then Mapped([], true)
    else match getLineData(rows[0])
      case Err(_) => Mapped([], false)
      case Ok(item) =>
        var rest := MapRows(getLineData, rows[1..]);
        Mapped([item] + rest.items, rest.ok)
  }

  /** The run over `rows` after the records `sofar` have been put. */
  function MapRowsAfter<T>(getLineData: Row -> Result<T>, rows: seq<Row>, sofar: seq<T>): Mapped<T>
  {
    var rest := MapRows(getLineData, rows);
    Mapped(sofar + rest.items, rest.ok)
  }

  /**
   * One step of the fetch loop: at the end nothing is left to map; a row that
   * raises ends the run with the records put so far; a row that maps adds its
   * record and moves on to the next row.
   */
  lemma MapRowsStep<T>(getLineData: Row -> Result<T>, rows: seq<Row>, i: int, sofar: seq<T>)
    requires 0 <= i <= |rows|
    ensures i == |rows| ==> MapRowsAfter(getLineData, rows[i..], sofar) == Mapped(sofar, true)
    ensures i < |rows| && getLineData(rows[i]).Err? ==>
      MapRowsAfter(getLineData, rows[i..], sofar) == Mapped(sofar, false)
    ensures i < |rows| && getLineData(rows[i]).Ok? ==>
      MapRowsAfter(getLineData, rows[i..], sofar)
        == MapRowsAfter(getLineData, rows[i + 1..], sofar + [getLineData(rows[i]).value])
  {
    if i == |rows| {
      assert rows[i..] == [];
      assert sofar + [] == sofar;
    } else {
      assert rows[i..][0] == rows[i] && rows[i..][1..] == rows[i + 1..];
      if getLineData(rows[i]).Err? {
        assert sofar + [] == sofar;
      } else {
        var v := getLineData(rows[i]).value;
        var tail := MapRows(getLineData, rows[i + 1..]).items;
        assert sofar + ([v] + tail) == sofar + [v] + tail;
      }
    }
  }

  /**
   * The records are those of the first rows, in file order. The run completes
   * exactly when every row maps, and then there is one record per row;
   * otherwise it stopped right at the first row that raised.
   */
  lemma {:induction false} MapRowsOrder<T>(getLineData: Row -> Result<T>, rows: seq<Row>)
    ensures var r := MapRows(getLineData, rows);
      && |r.items| <= |rows|
      && (forall i :: 0 <= i < |r.items| ==> getLineData(rows[i]) == Ok(r.items[i]))
      && (r.ok <==> forall i :: 0 <= i < |rows| ==> getLineData(rows[i]).Ok?)
      && (r.ok ==> |r.items| == |rows|)
      && (!r.ok ==> |r.items| < |rows| && getLineData(rows[|r.items|]).Err?)
    decreases |rows|
  {
    if rows != [] {
      MapRowsOrder(getLineData, rows[1..]);
      var r := MapRows(getLineData, rows);
      if getLineData(rows[0]).Ok? {
        assert r.items[1..] == MapRows(getLineData, rows[1..]).items;
        assert forall i :: 1 <= i < |rows| ==> rows[i] == rows[1..][i - 1];
      }
    }
  }

  /**
   * A completed run puts one data item per row and then a single sentinel;
   * an empty file puts only the sentinel.
   */
  lemma CsvQueueShape<T>(getLineData: Row -> Result<T>, rows: seq<Row>)
    requires MapRows(getLineData, rows).ok
    ensures var q := Puts(MapRows(getLineData, rows).items) + [Sentinel];
      && DataCount(q) == |rows|
      && q[|q| - 1] == Sentinel
      && Sentinel !in q[..|q| - 1]
      && (rows == [] ==> q == [Sentinel])
  {
    MapRowsOrder(getLineData, rows);
    var items := MapRows(getLineData, rows).items;
    PutsAt(items);
    var q := Puts(items) + [Sentinel];
    assert q[..|q| - 1] == Puts(items);
    DataCountAppend(Puts(items), [Sentinel]);
  }

  /** A CsvFetcher: a Fetcher whose data come from the rows of a CSV file. */
  class CsvFetcher<T> {
    const fetcher: Fetcher<T>
    const filePath: string
    /** The subclass's `getLineData`. */
    const getLineData: Row -> Result<T>

    constructor (resultQueue: seq<Slot<T>>, filePath: string, getLineData: Row -> Result<T>)
      ensures fresh(fetcher) && fetcher.Valid()
      ensures fetcher.queue == resultQueue && !fetcher.finished
      ensures fetcher.maxConcurrency == DEFAULT_MAX_CONCURRENCY && fetcher.maxRetries == DEFAULT_MAX_RETRIES
      ensures this.filePath == filePath && this.getLineData == getLineData
    {
      fetcher := new Fetcher(resultQueue);
      this.filePath := filePath;
      this.getLineData := getLineData;
    }

    /**
     * `fetch`: put the record of every row on the queue in file order, then
     * signal the end with `done()`. The time range is not used.
     */
    method Fetch(rows: seq<Row>, startTime: int, endTime: int) returns (outcome: Outcome)
      requires fetcher.Valid()
      modifies fetcher
      ensures fetcher.Valid()
      ensures var r := MapRows(getLineData, rows);
        && fetcher.queue == old(fetcher.queue) + Puts(r.items) + (if r.ok then [Sentinel] else [])
        && fetcher.finished == (old(fetcher.finished) || r.ok)
        && (outcome.Pass? <==> r.ok)
    {
      ghost var sofar: seq<T> := [];
      assert rows[0..] == rows;
      for i := 0 to |rows|
        invariant fetcher.Valid() && fetcher.finished == old(fetcher.finished)
        invariant fetcher.queue == old(fetcher.queue) + Puts(sofar)
        invariant MapRows(getLineData, rows) == MapRowsAfter(getLineData, rows[i..], sofar)
      {
        MapRowsStep(getLineData, rows, i, sofar);
        var lineData := getLineData(rows[i]);
        if lineData.Err? {
          return Fail(lineData.message);
        }
        PutsAppend(sofar, [lineData.value]);
        fetcher.queue := fetcher.queue + [Put(lineData.value)];
        sofar := sofar + [lineData.value];
      }
      MapRowsStep(getLineData, rows, |rows|, sofar);
      fetcher.Done();
      outcome := Pass;
    }
  }
}
