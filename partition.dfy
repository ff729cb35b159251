/**
 * Partition keys and the partition statement (firehoseTransformer.mjs,
 * the `partition_keys` object and the `ALTER TABLE` query), with the clock
 * fixed to UTC: an epoch-millisecond time is split into a civil date and an
 * hour of the proleptic Gregorian calendar.
 */
module Partition {
  import opened JsValue

  const MsPerHour: int := 3_600_000
  const MsPerDay: int := 86_400_000

  /** The largest distance from the epoch a `Date` may hold (TimeClip). */
  const MaxTimeMs: int := 8_640_000_000_000_000

  datatype CivilDate = CivilDate(year: int, month: int, day: int)

  predicate IsLeapYear(y: int)
  {
    y % 4 == 0 && (y % 100 != 0 || y % 400 == 0)
  }

  function DaysInMonth(y: int, m: int): int
  {
    if m == 2 then (if IsLeapYear(y) then 29 else 28)
    else if m == 4 || m == 6 || m == 9 || m == 11 then 30
    else 31
  }

  /** Splits a day of a 400-year era (counted from 1 March of its first
      year) into the year of the era and the day of that year: the era is
      four centuries (the last one a day longer), each century 25 four-year
      groups (the last one a day shorter), each group four years (the last one
      a day longer). */
  function YearOfEra(doe: int): (r: (int, int))
    requires 0 <= doe < 146097
    ensures 0 <= r.0 < 400 && 0 <= r.1 <= 365
    ensures doe == r.0 * 365 + r.0 / 4 - r.0 / 100 + r.1
    ensures r.1 == 365 ==> IsLeapYear(r.0 + 1)
  {
    var c := if doe / 36524 == 4 then 3 else doe / 36524;
    var doc := doe - c * 36524;
    var q := doc / 1461;
    var doq := doc % 1461;
    var y4 := if doq / 365 == 4 then 3 else doq / 365;
    var doy := doq - y4 * 365;
    EraPartsFit(c, q, y4, doy);
    (c * 100 + q * 4 + y4, doy)
  }

  lemma EraPartsFit(c: int, q: int, y4: int, doy: int)
    requires 0 <= c <= 3 && 0 <= q <= 24 && 0 <= y4 <= 3 && 0 <= doy <= 365
    requires doy == 365 ==> y4 == 3 && (q < 24 || c == 3)
    ensures var yoe := c * 100 + q * 4 + y4;
      && yoe / 4 == c * 25 + q && yoe / 100 == c
      && (doy == 365 ==> IsLeapYear(yoe + 1))
  {
    var yoe := c * 100 + q * 4 + y4;
    assert yoe / 4 == c * 25 + q by { assert yoe == 4 * (c * 25 + q) + y4; }
    assert yoe / 100 == c by { assert yoe == 100 * c + (q * 4 + y4) && q * 4 + y4 < 100; }
    if doy == 365 {
      if q < 24 {
        assert (yoe + 1) % 4 == 0 by { assert yoe + 1 == 4 * (c * 25 + q + 1); }
        assert (yoe + 1) % 100 != 0 by { assert yoe + 1 == 100 * c + (q * 4 + 4); }
      } else {
        assert yoe + 1 == 400;
      }
    }
  }

  /** A leap year is one 400 years before or after another. */
  lemma LeapPeriodic(era: int, n: int)
    ensures IsLeapYear(era * 400 + n) == IsLeapYear(n)
  {
    var y := era * 400 + n;
    ModShift(y, n, era * 400, 4, era * 100);
    ModShift(y, n, era * 400, 100, era * 4);
    ModShift(y, n, era * 400, 400, era);
  }

  /** Adding a multiple of `m` keeps the remainder modulo `m`. */
  lemma ModShift(y: int, n: int, d: int, m: int, k: int)
    requires 0 < m && d == m * k && y == d + n
    ensures y % m == n % m
  {
    var a := n / m;
    var r := n % m;
    assert n == m * a + r;
    assert y == m * (k + a) + r;
    DivModUnique(y, m, k + a, r);
  }

  /** The month (counted from March) and day of a day of the year. */
  function MonthOfYear(doy: int): (r: (int, int))
    requires 0 <= doy <= 365
    ensures 0 <= r.0 <= 11 && 1 <= r.1
    ensures (153 * r.0 + 2) / 5 + r.1 - 1 == doy
    ensures r.0 == 11 ==> r.1 <= 29
    ensures r.0 < 11 ==> r.1 <= DaysInMonth(1, if r.0 < 10 then r.0 + 3 else r.0 - 9)
  {
    var mp := (5 * doy + 2) / 153;
    (mp, doy - (153 * mp + 2) / 5 + 1)
  }

  /** The civil date of a day counted from 1970-01-01 (proleptic Gregorian
      calendar). Eras of 400 years start on 1 March; months are counted
      from March so that the leap day comes last. */
  function CivilFromDays(days: int): (d: CivilDate)
    ensures 1 <= d.month <= 12
    ensures 1 <= d.day <= DaysInMonth(d.year, d.month)
  {
    var z := days + 719468;
    CivilOfEraDay(z / 146097, z % 146097)
  }

  /** The civil date of day `doe` of era `era`. */
  function CivilOfEraDay(era: int, doe: int): (d: CivilDate)
    requires 0 <= doe < 146097
    ensures 1 <= d.month <= 12
    ensures 1 <= d.day <= DaysInMonth(d.year, d.month)
  {
    var (yoe, doy) := YearOfEra(doe);
    var (mp, day) := MonthOfYear(doy);
    var month := if mp < 10 then mp + 3 else mp - 9;
    var year := era * 400 + yoe + (if month <= 2 then 1 else 0);
    LeapPeriodic(era, yoe + 1);
    CivilDate(year, month, day)
  }

  /** The day count of a civil date: the inverse of CivilFromDays. */
  function DaysFromCivil(d: CivilDate): int
  {
    var y := if d.month <= 2 then d.year - 1 else d.year;
    var era := y / 400;
    var yoe := y - era * 400;
    var mp := if d.month > 2 then d.month - 3 else d.month + 9;
    var doy := (153 * mp + 2) / 5 + d.day - 1;
    var doe := yoe * 365 + yoe / 4 - yoe / 100 + doy;
    era * 146097 + doe - 719468
  }

  /** Every day has exactly one civil date: converting back gives the day. */
  lemma CivilRoundTrip(days: int)
    ensures DaysFromCivil(CivilFromDays(days)) == days
  {
    var z := days + 719468;
    EraSplit(z);
    EraDayRoundTrip(z / 146097, z % 146097);
  }

  lemma EraSplit(z: int)
    ensures z == 146097 * (z / 146097) + z % 146097 && 0 <= z % 146097 < 146097
  {
  }

  lemma EraDayRoundTrip(era: int, doe: int)
    requires 0 <= doe < 146097
    ensures DaysFromCivil(CivilOfEraDay(era, doe)) == era * 146097 + doe - 719468
  {
    var (yoe, doy) := YearOfEra(doe);
    var (mp, day) := MonthOfYear(doy);
    DaysFromCivilParts(era, yoe, mp, day);
  }

  /** DaysFromCivil of a date given by its era, year of era, month counted
      from March and day. */
  lemma DaysFromCivilParts(era: int, yoe: int, mp: int, day: int)
    requires 0 <= yoe < 400 && 0 <= mp <= 11
    ensures var month := if mp < 10 then mp + 3 else mp - 9;
      DaysFromCivil(CivilDate(era * 400 + yoe + (if month <= 2 then 1 else 0), month, day))
      == era * 146097 + yoe * 365 + yoe / 4 - yoe / 100 + (153 * mp + 2) / 5 + day - 1 - 719468
  {
    var y := era * 400 + yoe;
    DivModUnique(y, 400, era, yoe);
  }

  /** Partition keys: each field the decimal text of the date part, month,
      day and hour padded to two digits ("NaN" for an invalid date). */
  datatype PartitionKeys = PartitionKeys(year: string, month: string, day: string, hour: string)

  /** `s` is two decimal digits spelling `n`. */
  predicate TwoDigits(s: string, n: int)
  {
    |s| == 2 && IsDigit(s[0]) && IsDigit(s[1]) && DecimalValue(s) == n
  }

  /** `n.toString().padStart(2, '0')` for 0 <= n. */
  function Pad2(n: nat): (s: string)
    ensures n < 100 ==> TwoDigits(s, n)
  {
    DecimalRoundTrip(n);
    if n < 10 then "0" + NatToDecimal(n) else NatToDecimal(n)
  }

  /** The epoch-millisecond time of `new Date(t)` once TimeClip has been
      applied: None for an invalid date. */
  function TimeClip(t: int): Option<int>
  {
    if -MaxTimeMs <= t <= MaxTimeMs then Some(t) else None
  }

  /** The civil date and hour (UTC) of an epoch-millisecond time. */
  function CivilOfTime(t: int): (CivilDate, int)
  {
    (CivilFromDays(t / MsPerDay), (t % MsPerDay) / MsPerHour)
  }

  /** `{year, month, day, hour}` of a `Date`: `getFullYear().toString()` and
      the padded month (counted from 1), day and hour. An invalid date gives
      NaN everywhere, and `padStart` leaves "NaN" as it is. */
  function KeysOfTime(t: Option<int>): (k: PartitionKeys)
    ensures t.None? ==> k == PartitionKeys("NaN", "NaN", "NaN", "NaN")
    ensures t.Some? ==> var (d, h) := CivilOfTime(t.value);
              && 0 <= h < 24
              && k.year == IntToDecimal(d.year)
              && TwoDigits(k.month, d.month) && 1 <= d.month <= 12
              && TwoDigits(k.day, d.day) && 1 <= d.day <= DaysInMonth(d.year, d.month)
              && TwoDigits(k.hour, h)
  {
    match t
    case None => PartitionKeys("NaN", "NaN", "NaN", "NaN")
    case Some(ms) =>
      var (d, h) := CivilOfTime(ms);
      PartitionKeys(IntToDecimal(d.year), Pad2(d.month), Pad2(d.day), Pad2(h))
  }

  /** The partition keys identify the hour: the day count and the hour of
      the keys give back the hour elapsed since the epoch. */
  lemma KeysIdentifyHour(t: int)
    ensures var (d, h) := CivilOfTime(t);
            DaysFromCivil(d) * 24 + h == t / MsPerHour
  {
    CivilRoundTrip(t / MsPerDay);
  }

  /** A worked example: 1700000000000 ms is 2023-11-14, hour 22, in UTC. */
  lemma ExampleTime()
    ensures CivilOfTime(1700000000000) == (CivilDate(2023, 11, 14), 22)
    ensures KeysOfTime(Some(1700000000000)) == PartitionKeys("2023", "11", "14", "22")
  {
    assert 1700000000000 / MsPerDay == 19675;
    assert (1700000000000 % MsPerDay) / MsPerHour == 22;
    ExampleDay();
    ExampleDigits();
  }

  lemma ExampleDay()
    ensures CivilFromDays(19675) == CivilDate(2023, 11, 14)
  {
    assert 739143 / 146097 == 5 && 739143 % 146097 == 8658;
    ExampleEraDay();
    assert CivilFromDays(19675) == CivilOfEraDay(5, 8658);
  }

  lemma ExampleEraDay()
    ensures CivilOfEraDay(5, 8658) == CivilDate(2023, 11, 14)
  {
    assert YearOfEra(8658) == (23, 258);
    assert MonthOfYear(258) == (8, 14);
  }

  lemma ExampleDigits()
    ensures IntToDecimal(2023) == "2023"
    ensures Pad2(11) == "11" && Pad2(14) == "14" && Pad2(22) == "22"
  {
    assert NatToDecimal(2023) == "2023" by {
      assert NatToDecimal(2) == "2";
      assert NatToDecimal(20) == "20";
      assert NatToDecimal(202) == "202";
    }
    assert NatToDecimal(11) == "11" by { assert NatToDecimal(1) == "1"; }
    assert NatToDecimal(14) == "14" by { assert NatToDecimal(1) == "1"; }
    assert NatToDecimal(22) == "22" by { assert NatToDecimal(2) == "2"; }
  }

  /** Where the delivery stream writes a record with these keys: the prefix
      `events/!{year}/!{month}/!{day}/!{hour}/` configured on the stream. */
  function DeliveryPrefix(k: PartitionKeys): string
  {
    "events/" + k.year + "/" + k.month + "/" + k.day + "/" + k.hour + "/"
  }

  /** The partition's `ingest_timestamp` value. */
  function IngestTimestamp(k: PartitionKeys): string
  {
    k.year + "-" + k.month + "-" + k.day + " " + k.hour + ":00:00"
  }

  /** The partition's `LOCATION`. */
  function PartitionLocation(eventsBucket: string, k: PartitionKeys): (loc: string)
    ensures loc + "/" == "s3://" + eventsBucket + "/" + DeliveryPrefix(k)
  {
    "s3://" + eventsBucket + "/events/" + k.year + "/" + k.month + "/" + k.day + "/" + k.hour
  }

  /** The `ALTER TABLE … ADD IF NOT EXISTS PARTITION` statement. */
  function AddPartitionQuery(database: string, table: string, eventsBucket: string, k: PartitionKeys): (q: string)
    // the statement ends by naming the partition's LOCATION
    ensures var tail := " LOCATION '" + PartitionLocation(eventsBucket, k) + "'";
            |tail| <= |q| && q[|q| - |tail|..] == tail
    // and starts by naming the table and the partition's ingest_timestamp
    ensures var head := "ALTER TABLE `" + database + "`.`" + table + "` ADD IF NOT EXISTS PARTITION (ingest_timestamp='"
                        + IngestTimestamp(k) + "')";
            |head| <= |q| && q[..|head|] == head
  {
    var head := "ALTER TABLE `" + database + "`.`" + table + "` ADD IF NOT EXISTS PARTITION (ingest_timestamp='"
                + IngestTimestamp(k) + "')";
    var tail := " LOCATION '" + PartitionLocation(eventsBucket, k) + "'";
    assert (head + tail)[|head|..] == tail;
    assert (head + tail)[..|head|] == head;
    head + tail
  }
}
