/**
 * The `DailyTotal` record and the row mapper of `DailyTotalFetcher`
 * (fetcher/daily_totals.py): the number of submissions per day. The cell text
 * is converted as Python's `int()` converts a decimal string.
 */
module DailyTotalRecords {
  import opened Common
  import opened CsvFetching

  const TIME_COLUMN := "time"
  const VALUE_COLUMN := "value"

  /** The total of one day. */
  datatype DailyTotal = DailyTotal(date: string, total: int)

  predicate IsDigit(c: char)
  {
    '0' <= c <= '9'
  }

  /** One or more ASCII decimal digits. */
  predicate IsDigits(s: string)
  {
    |s| > 0 && forall i :: 0 <= i < |s| ==> IsDigit(s[i])
  }

  /** The value of a string of decimal digits, most significant first. */
  function DigitsValue(s: string): (n: nat)
    requires forall i :: 0 <= i < |s| ==> IsDigit(s[i])
    decreases |s|
  {
    if s == [] then 0
    else
      var digit := s[|s| - 1] as int - '0' as int;
      assert IsDigit(s[|s| - 1]);
      DigitsValue(s[..|s| - 1]) * 10 + digit
  }

  /**
   * `int(text)` for a decimal string: an optional sign followed by digits.
   * Anything else raises `ValueError`.
   */
  function ParseInt(text: string): (r: Result<int>)
    ensures r.Ok? <==> IsDigits(text) || (|text| > 0 && (text[0] == '+' || text[0] == '-') && IsDigits(text[1..]))
  {
    if |text| > 0 && (text[0] == '+' || text[0] == '-') then
      if IsDigits(text[1..]) then
        var magnitude: int := DigitsValue(text[1..]);
        Ok(if text[0] == '-' then -magnitude else magnitude)
      else Err("invalid literal for int() with base 10")
    else if IsDigits(text) then Ok(DigitsValue(text))
    else Err("invalid literal for int() with base 10")
  }

  /** The decimal digits of `n`, without leading zeros (`str(n)` for a natural number). */
  function FormatNat(n: nat): (s: string)
    decreases n
  {
    if n < 10 then [('0' as int + n) as char] else FormatNat(n / 10) + [('0' as int + n % 10) as char]
  }

  /** `str(n)`. */
  function FormatInt(n: int): string
  {
    if n < 0 then "-" + FormatNat(-n) else FormatNat(n)
  }

  /** The digits of `n` read back give `n`. */
  lemma {:induction false} FormatNatValue(n: nat)
    ensures IsDigits(FormatNat(n)) && DigitsValue(FormatNat(n)) == n
    decreases n
  {
    var s := FormatNat(n);
    if n >= 10 {
      FormatNatValue(n / 10);
      assert s[..|s| - 1] == FormatNat(n / 10);
    }
  }

  /** `int(str(n)) == n` for every integer `n`. */
  lemma ParseFormatInt(n: int)
    ensures ParseInt(FormatInt(n)) == Ok(n)
  {
    if n < 0 {
      FormatNatValue(-n);
      assert FormatInt(n)[1..] == FormatNat(-n);
    } else {
      FormatNatValue(n);
    }
  }

  /**
   * `getLineData`: the date is the `time` column (or `""`), and the total is
   * the `value` column converted by `int()` (with `"0"` when it is missing);
   * a value that is not a decimal integer raises.
   */
  function GetLineData(line: Row): (r: Result<DailyTotal>)
    ensures r.Ok? ==> r.value.date == Get(line, TIME_COLUMN, "")
    ensures r.Ok? <==> ParseInt(Get(line, VALUE_COLUMN, "0")).Ok?
    ensures r.Ok? ==> r.value.total == ParseInt(Get(line, VALUE_COLUMN, "0")).value
  {
    var date := Get(line, TIME_COLUMN, "");
    match ParseInt(Get(line, VALUE_COLUMN, "0"))
    case Err(message) => Err(message)
    case Ok(total) => Ok(DailyTotal(date, total))
  }

  /** A row without a `value` column counts zero. */
  lemma GetLineDataMissingValue(line: Row)
    requires VALUE_COLUMN !in line
    ensures GetLineData(line) == Ok(DailyTotal(Get(line, TIME_COLUMN, ""), 0))
  {
    assert IsDigits("0");
  }

  /** A row whose `value` is the decimal text of `n` has total `n`. */
  lemma GetLineDataValue(line: Row, n: int)
    requires VALUE_COLUMN in line && line[VALUE_COLUMN] == FormatInt(n)
    ensures GetLineData(line) == Ok(DailyTotal(Get(line, TIME_COLUMN, ""), n))
  {
    ParseFormatInt(n);
  }

  /** No other column affects the result. */
  lemma GetLineDataOnlyNamedColumns(a: Row, b: Row)
    requires (TIME_COLUMN in a <==> TIME_COLUMN in b) && (TIME_COLUMN in a ==> a[TIME_COLUMN] == b[TIME_COLUMN])
    requires (VALUE_COLUMN in a <==> VALUE_COLUMN in b) && (VALUE_COLUMN in a ==> a[VALUE_COLUMN] == b[VALUE_COLUMN])
    ensures GetLineData(a) == GetLineData(b)
  {
  }
}
