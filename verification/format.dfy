/**
 * src/domains/shared/utils/format.js: `formatDate`, on the two paths that
 * only look at the text. A value that is neither empty nor already in
 * YYYY-MM-DD form goes through a `Date` object; that path is not part of
 * this model and shows as `Reformatted`.
 */
module Format {
  import opened JsCore
  import opened Calendar

  /** What `formatDate` is given: nothing (null or undefined) or a string. */
  datatype DateArg = Missing | Str(s: string)

  /** The value `formatDate` returns, or the marker for the `Date` object path. */
  datatype Formatted = Returned(text: string) | Reformatted

  /** A value JavaScript treats as false: a missing value or the empty string. */
  predicate Falsy(date: DateArg)
  {
    date.Missing? || date.s == ""
  }

  /**
   * `formatDate(date)`: "" for a falsy value, the text itself when it already
   * has the YYYY-MM-DD shape (digits are not checked against the calendar),
   * the `Date` path otherwise.
   */
  function FormatDate(date: DateArg): (r: Formatted)
    ensures Falsy(date) ==> r == Returned("")
    ensures !Falsy(date) && IsIsoShape(date.s) ==> r == Returned(date.s)
    ensures r.Returned? <==> Falsy(date) || IsIsoShape(date.s)
  {
    if Falsy(date) then Returned("")
    else if IsIsoShape(date.s) then Returned(date.s)
    else Reformatted
  }

  /** On the text paths, formatting what was returned returns it again. */
  lemma FormatDateIdempotent(date: DateArg)
    requires FormatDate(date).Returned?
    ensures FormatDate(Str(FormatDate(date).text)) == FormatDate(date)
  {
  }

  /** The shape test is only syntactic: month 13, day 45 passes through unchanged. */
  lemma ShapeOnlyCheck()
    ensures FormatDate(Str("2024-13-45")) == Returned("2024-13-45")
    ensures ParseIso("2024-13-45").None?
  {
    assert IsIsoShape("2024-13-45");
  }

  /** A date the application wrote itself (four-digit year) comes back unchanged. */
  lemma FormatDateOfIsoDate(d: Date)
    requires Valid(d) && 0 <= d.year <= 9999
    ensures FormatDate(Str(FormatIso(d))) == Returned(FormatIso(d))
  {
    ParseFormatRoundTrip(d);
  }
}
