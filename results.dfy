/** What src/components/SearchResults.tsx shows for a list of journeys and an
    optional error: which branch, and the text of each table cell. */
module Results {
  import opened Types
  import opened Calendar

  const ErrorPrefix := "An unexpected error occurred: "

  /** One table row: origin, destination, date, departure time, arrival time, price. */
  datatype Row = Row(
    origin: string,
    destination: string,
    date: string,
    departureTime: string,
    arrivalTime: string,
    price: Amount)

  /** The three things the component can show. */
  datatype ResultsView = ErrorText(text: string) | NoResults | Table(rows: seq<Row>)

  predicate IsDigit(c: char)
  {
    '0' <= c <= '9'
  }

  predicate AllDigits(s: string)
  {
    forall i :: 0 <= i < |s| ==> IsDigit(s[i])
  }

  function DigitChar(d: nat): (c: char)
    requires d < 10
    ensures IsDigit(c) && c as int - '0' as int == d
  {
    ('0' as int + d) as char
  }

  /** The number a string of decimal digits denotes; leading zeros are allowed. */
  function DigitsValue(s: string): nat
    requires AllDigits(s)
  {
    if s == [] then 0
    else DigitsValue(s[..|s| - 1]) * 10 + (s[|s| - 1] as int - '0' as int)
  }

  /** `toString()` of a non-negative integer: its decimal digits, no leading zero. */
  function NatToString(n: nat): (s: string)
    ensures AllDigits(s) && |s| >= 1
    ensures |s| == 1 <==> n < 10
    ensures |s| > 1 ==> s[0] != '0'
  {
    if n < 10 then [DigitChar(n)] else NatToString(n / 10) + [DigitChar(n % 10)]
  }

  /** `toString()` of an integer: digits that read back as the value, behind a
      minus sign when it is negative. */
  function IntToString(i: int): (s: string)
    ensures i >= 0 ==> AllDigits(s) && DigitsValue(s) == i
    ensures i < 0 ==> |s| >= 2 && s[0] == '-' && AllDigits(s[1..]) && DigitsValue(s[1..]) == -i
    ensures i >= 10 ==> s[0] != '0'
    ensures i <= -10 ==> |s| >= 3 && s[1] != '0'
  {
    NatToStringRoundTrip(if i < 0 then -i else i);
    if i < 0 then "-" + NatToString(-i) else NatToString(i)
  }

  /** Reading back the digits of a number gives the number. */
  lemma {:induction false} NatToStringRoundTrip(n: nat)
    ensures DigitsValue(NatToString(n)) == n
  {
    if n >= 10 {
      NatToStringRoundTrip(n / 10);
      var s := NatToString(n);
      assert s[..|s| - 1] == NatToString(n / 10);
    }
  }

  /** A leading zero does not change the value of a digit string. */
  lemma {:induction false} LeadingZero(s: string)
    requires AllDigits(s)
    ensures AllDigits("0" + s) && DigitsValue("0" + s) == DigitsValue(s)
  {
    if s != [] {
      LeadingZero(s[..|s| - 1]);
      assert ("0" + s)[..|s|] == "0" + s[..|s| - 1];
    }
  }

  /** `padStart(length, fill)`: `fill` in front of `s` up to `length` characters. */
  function PadStart(s: string, length: nat, fill: char): (r: string)
    ensures |s| >= length ==> r == s
    ensures |s| < length ==> r == seq(length - |s|, _ => fill) + s
    decreases length - |s|
  {
    if |s| >= length then s else PadStart([fill] + s, length, fill)
  }

  /** `padStart(2, "0")` of the decimal digits of a number below 100 gives two digits
      that denote that number: a one-digit number gets a '0' in front, a two-digit
      number is left as it is. */
  lemma TwoDigits(n: nat)
    requires n < 100
    ensures var r := PadStart(NatToString(n), 2, '0');
      |r| == 2 && AllDigits(r) && DigitsValue(r) == n
    ensures n >= 10 ==> PadStart(NatToString(n), 2, '0') == NatToString(n)
    ensures n < 10 ==> PadStart(NatToString(n), 2, '0') == ['0', DigitChar(n)]
  {
    var s := NatToString(n);
    NatToStringRoundTrip(n);
    if n < 10 {
      assert s == [DigitChar(n)];
      assert PadStart(s, 2, '0') == PadStart("0" + s, 2, '0') == "0" + s;
      LeadingZero(s);
    } else {
      assert s == NatToString(n / 10) + [DigitChar(n % 10)];
      assert |s| == 2;
    }
  }

  /** `formatDate`: day-month-year of the date of time value `t`, with a two-digit
      day and month; the month is the 0-based month plus one. The three fields read
      back as the date, and a four-digit year gives `dd-mm-yyyy`. */
  function FormatDate(t: int): (r: string)
    ensures var c := Civil(t);
      && |r| >= 7 && r[2] == '-' && r[5] == '-'
      && AllDigits(r[..2]) && DigitsValue(r[..2]) == c.day
      && AllDigits(r[3..5]) && DigitsValue(r[3..5]) == c.month0 + 1
      && (c.year >= 0 ==> AllDigits(r[6..]) && DigitsValue(r[6..]) == c.year)
      && (c.year < 0 ==> |r| >= 8 && r[6] == '-' && AllDigits(r[7..]) && DigitsValue(r[7..]) == -c.year)
      && (c.year >= 10 ==> r[6] != '0')
      && (c.year <= -10 ==> r[7] != '0')
      && (1000 <= c.year <= 9999 ==> |r| == 10)
  {
    var c := Civil(t);
    var dd := PadStart(IntToString(c.day), 2, '0');
    var mm := PadStart(IntToString(c.month0 + 1), 2, '0');
    var yy := IntToString(c.year);
    TwoDigits(c.day);
    TwoDigits(c.month0 + 1);
    SeparatedFields(dd, '-', mm, yy);
    YearDigits(c.year);
    dd + "-" + mm + "-" + yy
  }

  /** Two two-character fields and a third one joined by a separator, and the
      slices that recover them. */
  lemma SeparatedFields(x: string, sep: char, y: string, z: string)
    requires |x| == 2 && |y| == 2
    ensures var r := x + [sep] + y + [sep] + z;
      |r| == 6 + |z| && r[2] == sep && r[5] == sep && r[..2] == x && r[3..5] == y && r[6..] == z
  {
  }

  /** A year from 1000 to 9999 is written with four digits. */
  lemma YearDigits(year: int)
    ensures 1000 <= year <= 9999 ==> |IntToString(year)| == 4
  {
    if 1000 <= year <= 9999 {
      assert |NatToString(year / 10)| == 3 by {
        assert |NatToString(year / 100)| == 2;
      }
    }
  }

  /** `formatTime`: hours and minutes of time value `t`, two digits each, separated
      by a colon; the two fields read back as the hours and the minutes. */
  function FormatTime(t: int): (r: string)
    ensures && |r| == 5 && r[2] == ':'
            && AllDigits(r[..2]) && DigitsValue(r[..2]) == Hours(t)
            && AllDigits(r[3..]) && DigitsValue(r[3..]) == Minutes(t)
  {
    var hh := PadStart(IntToString(Hours(t)), 2, '0');
    var mm := PadStart(IntToString(Minutes(t)), 2, '0');
    TwoDigits(Hours(t));
    TwoDigits(Minutes(t));
    assert (hh + ":" + mm)[..2] == hh && (hh + ":" + mm)[3..] == mm;
    hh + ":" + mm
  }

  /** The row shown for one journey. Its cells read back as the journey's places,
      its departure date and its departure and arrival clock times; the price keeps
      the journey's amount and is shown in euros whatever the journey's own currency
      (its locale formatting is not modelled). */
  function RowOf(j: Journey): (row: Row)
    ensures row.origin == j.origin && row.destination == j.destination
    ensures var c := Civil(j.departure);
      && |row.date| >= 7 && row.date[2] == '-' && row.date[5] == '-'
      && AllDigits(row.date[..2]) && DigitsValue(row.date[..2]) == c.day
      && AllDigits(row.date[3..5]) && DigitsValue(row.date[3..5]) == c.month0 + 1
      && (c.year >= 0 ==> AllDigits(row.date[6..]) && DigitsValue(row.date[6..]) == c.year)
      && (c.year < 0 ==> |row.date| >= 8 && row.date[6] == '-' && AllDigits(row.date[7..])
                         && DigitsValue(row.date[7..]) == -c.year)
      && (1000 <= c.year <= 9999 ==> |row.date| == 10)
    ensures && |row.departureTime| == 5 && |row.arrivalTime| == 5
            && AllDigits(row.departureTime[..2]) && DigitsValue(row.departureTime[..2]) == Hours(j.departure)
            && AllDigits(row.departureTime[3..]) && DigitsValue(row.departureTime[3..]) == Minutes(j.departure)
            && AllDigits(row.arrivalTime[..2]) && DigitsValue(row.arrivalTime[..2]) == Hours(j.arrival)
            && AllDigits(row.arrivalTime[3..]) && DigitsValue(row.arrivalTime[3..]) == Minutes(j.arrival)
    ensures row.price.value == j.price.value && row.price.currency == "EUR"
  {
    Row(j.origin, j.destination,
        FormatDate(j.departure),
        FormatTime(j.departure),
        FormatTime(j.arrival),
        Amount(j.price.value, "EUR"))
  }

  /** `Array.prototype.map`: `f` applied to each element, in order. */
  function MapSeq<A, B>(xs: seq<A>, f: A -> B): (ys: seq<B>)
    ensures |ys| == |xs|
    ensures forall i :: 0 <= i < |xs| ==> ys[i] == f(xs[i])
  {
    if xs == [] then [] else [f(xs[0])] + MapSeq(xs[1..], f)
  }

  /** One row per journey, in order. */
  function Rows(journeys: seq<Journey>): (rows: seq<Row>)
    ensures |rows| == |journeys|
    ensures forall i :: 0 <= i < |journeys| ==> rows[i] == RowOf(journeys[i])
  {
    MapSeq(journeys, RowOf)
  }

  /** The component: an error wins over everything, then an empty list shows
      "No results", otherwise the table. */
  function Render(journeys: seq<Journey>, error: Option<string>): (v: ResultsView)
    ensures v.ErrorText? <==> Truthy(error)
    ensures v.ErrorText? ==> v.text == ErrorPrefix + error.value
    ensures v.NoResults? <==> !Truthy(error) && journeys == []
    ensures v.Table? ==> |v.rows| == |journeys|
    ensures v.Table? ==> forall i :: 0 <= i < |journeys| ==> v.rows[i] == RowOf(journeys[i])
  {
    if Truthy(error) then ErrorText(ErrorPrefix + error.value)
    else if |journeys| == 0 then NoResults
    else Table(Rows(journeys))
  }
}
