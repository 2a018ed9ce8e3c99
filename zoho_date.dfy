/**
 * The CRM's date-time text `yyyy-MM-ddTHH:mm:ss` as the respond handler
 * writes it (`formatZohoDate`, api/respond.js), together with a reader for
 * that text, so that the written fields can be shown to read back.
 */
module ZohoDate {
  import opened Wrappers

  /**
   * A local date and time, already split into the numbers that `Date`'s
   * getters return: the full year, the month counted from 1, the day of the
   * month, hours, minutes and seconds.
   */
  datatype DateTime = DateTime(year: int, month: nat, day: nat, hour: nat, minute: nat, second: nat)

  /** The ranges `Date`'s local-time getters keep to. */
  predicate InRange(d: DateTime) {
    && 1 <= d.month <= 12
    && 1 <= d.day <= 31
    && d.hour <= 23
    && d.minute <= 59
    && d.second <= 59
  }

  predicate IsDigit(c: char) {
    '0' <= c <= '9'
  }

  predicate AllDigits(s: string) {
    forall i :: 0 <= i < |s| ==> IsDigit(s[i])
  }

  function DigitChar(n: nat): (c: char)
    requires n < 10
    ensures IsDigit(c)
  {
    "0123456789"[n]
  }

  function DigitValue(c: char): (n: nat)
    requires IsDigit(c)
    ensures n < 10
  {
    (c as int - '0' as int) as nat
  }

  /** `String(n)` for a non-negative integer: its decimal digits, most significant first. */
  function Decimal(n: nat): (s: string)
    ensures |s| >= 1 && AllDigits(s)
    ensures s[0] == '0' ==> n == 0
    decreases n
  {
    if n < 10 then [DigitChar(n)] else Decimal(n / 10) + [DigitChar(n % 10)]
  }

  /** `String(n)` for any integer: a minus sign before the digits of a negative one. */
  function IntDecimal(n: int): (s: string)
    ensures |s| >= 1
    ensures s[0] == '-' <==> n < 0
    ensures n >= 0 ==> AllDigits(s)
  {
    if n < 0 then "-" + Decimal(-n) else Decimal(n)
  }

  /** The number a string of decimal digits denotes. */
  function DigitsValue(s: string): nat
    requires AllDigits(s)
    decreases |s|
  {
    if |s| == 0 then 0 else DigitsValue(s[..|s| - 1]) * 10 + DigitValue(s[|s| - 1])
  }

  /** `pad`: `String(n).padStart(2, "0")`. */
  function Pad2(n: nat): (s: string)
    ensures |s| >= 2 && AllDigits(s)
    ensures n < 100 ==> |s| == 2
  {
    DecimalLength(n);
    var digits := Decimal(n);
    if |digits| < 2 then "0" + digits else digits
  }

  /** A separator followed by a padded field. */
  function Field(sep: char, n: nat): (s: string)
    ensures |s| >= 3 && s[0] == sep && s[1..] == Pad2(n)
    ensures n < 100 ==> |s| == 3
  {
    [sep] + Pad2(n)
  }

  /** What follows the year: month, day, hours, minutes and seconds with their separators. */
  function Tail(d: DateTime): (t: string)
    ensures |t| >= 15
    ensures InRange(d) ==> |t| == 15
  {
    Field('-', d.month) + Field('-', d.day) + Field('T', d.hour) + Field(':', d.minute) + Field(':', d.second)
  }

  /** `formatZohoDate`: the year, then month, day, hours, minutes and seconds, each padded to two digits. */
  function Format(d: DateTime): (s: string)
    ensures |s| >= |IntDecimal(d.year)| + 15
    ensures InRange(d) ==> |s| == |IntDecimal(d.year)| + 15
  {
    IntDecimal(d.year) + Tail(d)
  }

  /** Reads an optionally signed decimal integer. */
  function ParseInt(s: string): Option<int> {
    if |s| >= 2 && s[0] == '-' && AllDigits(s[1..]) then Some(-(DigitsValue(s[1..]) as int))
    else if |s| >= 1 && AllDigits(s) then Some(DigitsValue(s))
    else None
  }

  /** Reads two digits at `s[i..i+2]`. */
  function Field2(s: string, i: nat): Option<nat>
    requires i + 2 <= |s|
  {
    if AllDigits(s[i..i + 2]) then Some(DigitsValue(s[i..i + 2])) else None
  }

  /**
   * Reads `Y-MM-DDTHH:mm:ss`: the year is whatever precedes the last fifteen
   * characters, which hold the separators and five two-digit fields.
   */
  function Parse(s: string): Option<DateTime> {
    if |s| < 16 then None
    else
      var tail := s[|s| - 15..];
      var year := ParseInt(s[..|s| - 15]);
      var month, day := Field2(tail, 1), Field2(tail, 4);
      var hour, minute, second := Field2(tail, 7), Field2(tail, 10), Field2(tail, 13);
      if && tail[0] == '-' && tail[3] == '-' && tail[6] == 'T' && tail[9] == ':' && tail[12] == ':'
         && year.Some? && month.Some? && day.Some? && hour.Some? && minute.Some? && second.Some?
      then Some(DateTime(year.value, month.value, day.value, hour.value, minute.value, second.value))
      else None
  }

  // ---------------------------------------------------------------------
  // Lemmas

  lemma {:induction false} DecimalRoundTrip(n: nat)
    ensures DigitsValue(Decimal(n)) == n
    decreases n
  {
    if n >= 10 {
      var s := Decimal(n);
      DecimalRoundTrip(n / 10);
      assert s[..|s| - 1] == Decimal(n / 10);
    }
  }

  /** `String(n)` has one digit below 10, two below 100 and four from 1000 to 9999. */
  lemma DecimalLength(n: nat)
    ensures n < 10 ==> |Decimal(n)| == 1
    ensures 10 <= n < 100 ==> |Decimal(n)| == 2
    ensures 1000 <= n < 10000 ==> |Decimal(n)| == 4
  {
    if 10 <= n < 100 {
      assert n / 10 < 10;
    } else if 1000 <= n < 10000 {
      var a, b, c := n / 10, n / 100, n / 1000;
      assert 100 <= a < 1000 && b == a / 10 && 10 <= b < 100 && c == b / 10 && 1 <= c < 10;
      assert |Decimal(n)| == |Decimal(a)| + 1;
      assert |Decimal(a)| == |Decimal(b)| + 1;
      assert |Decimal(b)| == |Decimal(c)| + 1;
    }
  }

  /** Below 100, `pad` gives exactly two digits that read back as the number. */
  lemma Pad2Facts(n: nat)
    requires n < 100
    ensures |Pad2(n)| == 2
    ensures DigitsValue(Pad2(n)) == n
  {
    DecimalLength(n);
    DecimalRoundTrip(n);
    var s := Pad2(n);
    if n < 10 {
      assert s == "0" + Decimal(n);
      assert s[..1] == "0";
      assert DigitsValue(s[..1]) == 0 by {
        assert s[..1][..0] == [];
      }
    }
  }

  lemma IntRoundTrip(n: int)
    ensures ParseInt(IntDecimal(n)) == Some(n)
  {
    DecimalRoundTrip(if n < 0 then -n else n);
    if n < 0 {
      assert IntDecimal(n)[1..] == Decimal(-n);
    } else {
      assert IntDecimal(n)[0] != '-';
    }
  }

  /** The text is the year followed by a fixed fifteen-character tail. */
  lemma FormatSplit(d: DateTime)
    requires InRange(d)
    ensures |Format(d)| == |IntDecimal(d.year)| + 15
    ensures Format(d)[..|IntDecimal(d.year)|] == IntDecimal(d.year)
    ensures var t := Format(d)[|IntDecimal(d.year)|..];
      && t[0] == '-' && t[3] == '-' && t[6] == 'T' && t[9] == ':' && t[12] == ':'
      && t[1..3] == Pad2(d.month) && t[4..6] == Pad2(d.day) && t[7..9] == Pad2(d.hour)
      && t[10..12] == Pad2(d.minute) && t[13..15] == Pad2(d.second)
  {
    var y := IntDecimal(d.year);
    assert Format(d)[..|y|] == y;
    assert Format(d)[|y|..] == Tail(d);
    TailShape(d);
  }

  /** The tail holds its five fields at fixed places. */
  lemma TailShape(d: DateTime)
    requires InRange(d)
    ensures var t := Tail(d);
      && t[0] == '-' && t[3] == '-' && t[6] == 'T' && t[9] == ':' && t[12] == ':'
      && t[1..3] == Pad2(d.month) && t[4..6] == Pad2(d.day) && t[7..9] == Pad2(d.hour)
      && t[10..12] == Pad2(d.minute) && t[13..15] == Pad2(d.second)
  {
    var a, b, c := Field('-', d.month), Field('-', d.day), Field('T', d.hour);
    var e, f := Field(':', d.minute), Field(':', d.second);
    var t := Tail(d);
    assert t == a + b + c + e + f;
    assert t[0..3] == a && t[3..6] == b && t[6..9] == c && t[9..12] == e && t[12..15] == f;
  }

  /** With a four-digit year the text is 19 characters with separators at fixed places. */
  lemma FourDigitYearShape(d: DateTime)
    requires InRange(d) && 1000 <= d.year <= 9999
    ensures |Format(d)| == 19
    ensures var s := Format(d);
      && s[4] == '-' && s[7] == '-' && s[10] == 'T' && s[13] == ':' && s[16] == ':'
      && AllDigits(s[..4]) && AllDigits(s[5..7]) && AllDigits(s[8..10])
      && AllDigits(s[11..13]) && AllDigits(s[14..16]) && AllDigits(s[17..])
  {
    DecimalLength(d.year);
    FormatSplit(d);
    var s := Format(d);
    var t := s[4..];
    assert s[4] == t[0] && s[7] == t[3] && s[10] == t[6] && s[13] == t[9] && s[16] == t[12];
    assert s[5..7] == t[1..3] && s[8..10] == t[4..6] && s[11..13] == t[7..9];
    assert s[14..16] == t[10..12] && s[17..] == t[13..15];
  }

  /** Every field written can be read back from the text. */
  lemma ParseFormat(d: DateTime)
    requires InRange(d)
    ensures Parse(Format(d)) == Some(d)
  {
    FormatSplit(d);
    IntRoundTrip(d.year);
    Pad2Facts(d.month);
    Pad2Facts(d.day);
    Pad2Facts(d.hour);
    Pad2Facts(d.minute);
    Pad2Facts(d.second);
    var s := Format(d);
    var n := |IntDecimal(d.year)|;
    assert s[..|s| - 15] == IntDecimal(d.year);
    assert s[|s| - 15..] == s[n..];
  }
}
