// Calendar dates as `LocalDate.now()` supplies them, and their
// `yyyyMMdd` rendering (`DateTimeFormatter.ofPattern("yyyyMMdd")`).
module Calendar {
  import opened Text

  datatype Date = Date(year: int, month: int, day: int)
  {
    /** Fields in range: a four-digit year, a month 1 to 12 and a day 1 to 31, whatever the month. */
    predicate Valid()
    {
      1 <= year <= 9999 && 1 <= month <= 12 && 1 <= day <= 31
    }
  }

  /** The eight-digit `yyyyMMdd` rendering of a date. */
  function BasicIsoDate(d: Date): (r: string)
    requires d.Valid()
    ensures |r| == 8 && AllDigits(r)
  {
    ZeroPad(d.year, 4) + ZeroPad(d.month, 2) + ZeroPad(d.day, 2)
  }

  /** The rendering can be read back: digits 0-3 are the year, 4-5 the month, 6-7 the day. */
  lemma BasicIsoDateRoundTrip(d: Date)
    requires d.Valid()
    ensures ParseDecimal(BasicIsoDate(d)[..4]) == d.year
    ensures ParseDecimal(BasicIsoDate(d)[4..6]) == d.month
    ensures ParseDecimal(BasicIsoDate(d)[6..]) == d.day
  {
    var r := BasicIsoDate(d);
    assert r[..4] == ZeroPad(d.year, 4);
    assert r[4..6] == ZeroPad(d.month, 2);
    assert r[6..] == ZeroPad(d.day, 2);
    assert Pow10(4) == 10000 && Pow10(2) == 100 by {
      assert Pow10(1) == 10;
      assert Pow10(3) == 1000;
    }
    ZeroPadRoundTrip(d.year, 4);
    ZeroPadRoundTrip(d.month, 2);
    ZeroPadRoundTrip(d.day, 2);
  }
}
