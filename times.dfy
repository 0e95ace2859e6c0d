/** Calendar dates and instants as the pipeline uses them: a `date` is its
    proleptic Gregorian ordinal (Python's `date.toordinal()`, 0001-01-01 is 1),
    a `datetime` is an opaque instant. */
module Times {
  import opened Strings

  datatype Date = Date(ordinal: int)

  /** A point in time, in microseconds; only its identity matters here. */
  datatype DateTime = DateTime(micros: int)

  /** `d - timedelta(days=n)`. */
  function MinusDays(d: Date, n: int): Date {
    Date(d.ordinal - n)
  }

  /** Year, month and day of a date (days-to-civil conversion, 1970-01-01 is
      ordinal 719163). */
  function Civil(d: Date): (int, int, int) {
    var z := d.ordinal - 719163 + 719468;
    var era := z / 146097;
    var doe := z - era * 146097;
    var yoe := (doe - doe / 1460 + doe / 36524 - doe / 146096) / 365;
    var doy := doe - (365 * yoe + yoe / 4 - yoe / 100);
    var mp := (5 * doy + 2) / 153;
    var day := doy - (153 * mp + 2) / 5 + 1;
    var month := if mp < 10 then mp + 3 else mp - 9;
    var year := yoe + era * 400 + (if month <= 2 then 1 else 0);
    (year, month, day)
  }

  function PadInt(n: int, width: nat): string {
    if n < 0 then "-" + ZeroPad(-n, width) else ZeroPad(n, width)
  }

  /** `str(d)`, that is `d.isoformat()`: `YYYY-MM-DD`. */
  function IsoDate(d: Date): string {
    var (y, m, day) := Civil(d);
    PadInt(y, 4) + "-" + PadInt(m, 2) + "-" + PadInt(day, 2)
  }
}
