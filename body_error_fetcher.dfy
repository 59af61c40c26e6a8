/**
 * The `BodyError` record and the row mapper of `BodyErrorFetcher`
 * (fetcher/body_error.py): three columns of an exported error log.
 */
module BodyErrorRecords {
  import opened Common
  import opened CsvFetching

  const DATE_COLUMN := "Date"
  const ATTRIBUTE_ERROR_COLUMN := "@Body.Attributes.metadata.error"
  const BODY_MESSAGE_COLUMN := "@Body.message"

  /** One error-log line: its date, the error attribute and the message body. */
  datatype BodyError = BodyError(date: string, attributeError: string, bodyMessage: string)

  /** Whether two rows agree on column `key`: both lack it, or both hold the same text. */
  predicate SameColumn(a: Row, b: Row, key: string)
  {
    (key in a <==> key in b) && (key in a ==> a[key] == b[key])
  }

  /**
   * `getLineData`: each field is its column's text, or `""` when the row has
   * no such column.
   */
  function GetLineData(line: Row): (r: BodyError)
    ensures DATE_COLUMN in line ==> r.date == line[DATE_COLUMN]
    ensures DATE_COLUMN !in line ==> r.date == ""
    ensures ATTRIBUTE_ERROR_COLUMN in line ==> r.attributeError == line[ATTRIBUTE_ERROR_COLUMN]
    ensures ATTRIBUTE_ERROR_COLUMN !in line ==> r.attributeError == ""
    ensures BODY_MESSAGE_COLUMN in line ==> r.bodyMessage == line[BODY_MESSAGE_COLUMN]
    ensures BODY_MESSAGE_COLUMN !in line ==> r.bodyMessage == ""
  {
    BodyError(Get(line, DATE_COLUMN, ""), Get(line, ATTRIBUTE_ERROR_COLUMN, ""), Get(line, BODY_MESSAGE_COLUMN, ""))
  }

  /** No other column affects the record. */
  lemma GetLineDataOnlyNamedColumns(a: Row, b: Row)
    requires SameColumn(a, b, DATE_COLUMN)
    requires SameColumn(a, b, ATTRIBUTE_ERROR_COLUMN)
    requires SameColumn(a, b, BODY_MESSAGE_COLUMN)
    ensures GetLineData(a) == GetLineData(b)
  {
  }

  /** The mapper as the fetcher calls it: it never raises. */
  function Mapper(line: Row): Result<BodyError>
  {
    Ok(GetLineData(line))
  }

  /** A BodyErrorFetcher run maps every row, so it always ends with the sentinel. */
  lemma {:induction false} BodyErrorRowsAllMap(rows: seq<Row>)
    ensures MapRows(Mapper, rows).ok
    ensures MapRows(Mapper, rows).items == seq(|rows|, i requires 0 <= i < |rows| => GetLineData(rows[i]))
  {
    MapRowsOrder(Mapper, rows);
    var r := MapRows(Mapper, rows);
    assert forall i :: 0 <= i < |rows| ==> Mapper(rows[i]).Ok?;
    assert |r.items| == |rows|;
    forall i | 0 <= i < |rows|
      ensures r.items[i] == GetLineData(rows[i])
    {
      assert Mapper(rows[i]) == Ok(r.items[i]);
    }
  }
}
