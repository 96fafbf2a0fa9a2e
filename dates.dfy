/**
 * `java.time.LocalDate` as the app uses it: a calendar date and its `toString()`, the
 * ISO-8601 text `uuuu-MM-dd`.
 */
module Dates {
  import opened Numbers

  datatype DateFields = DateFields(year: int, month: int, day: int)

  /** The range `LocalDate` accepts: years -999999999..999999999, months 1..12 and days
      1..31 (which days each month has is not modelled). */
  type LocalDate = d: DateFields
    | -999_999_999 <= d.year <= 999_999_999 && 1 <= d.month <= 12 && 1 <= d.day <= 31
    witness DateFields(2000, 1, 1)

  /** The year part of `LocalDate.toString()`: at least four digits, zero-padded, with a
      '-' for years before year 0 and a '+' for years after 9999. */
  function YearText(year: int): string {
    var absYear := if year < 0 then -year else year;
    if absYear < 1000 then
      (if year < 0 then "-" else "") + NatToDecimal(absYear + 10000)[1..]
    else
      (if year > 9999 then "+" else "") + LongToString(year)
  }

  /** `LocalDate.toString()`: the year, then '-' and the two-digit month, then '-' and the
      two-digit day. */
  function DateText(d: LocalDate): string {
    YearText(d.year)
      + (if d.month < 10 then "-0" else "-") + NatToDecimal(d.month)
      + (if d.day < 10 then "-0" else "-") + NatToDecimal(d.day)
  }

  /** Every year is written with at least four characters. */
  lemma YearTextLength(year: int)
    ensures |YearText(year)| >= 4
  {
    var absYear := if year < 0 then -year else year;
    if absYear < 1000 {
      DecimalLength(absYear + 10000, 4);
      DecimalLength(absYear + 10000, 5);
    } else {
      DecimalLength(absYear, 3);
    }
  }

  /** A formatted date is never shorter than ten characters (`uuuu-MM-dd`). */
  lemma DateTextLength(d: LocalDate)
    ensures |DateText(d)| >= 10
  {
    YearTextLength(d.year);
    DecimalLength(d.month, 1);
    DecimalLength(d.day, 1);
  }
}
