/** `utils/timezone.ts`: `formatDate(date, format = 'YYYY-MM-DD')`, the day of an
    instant in Seoul written out by luxon's `toFormat`. Dates in this model are the
    days themselves, `yyyy-MM-dd`; a day stored as UTC midnight is 09:00 of the same
    day in Seoul, so the shift to Seoul never changes the day. */
module Timezone {
  /** A day written `yyyy-MM-dd`. */
  predicate IsDay(d: string) {
    |d| == 10 && d[4] == '-' && d[7] == '-' &&
    forall i :: 0 <= i < 10 && i != 4 && i != 7 ==> '0' <= d[i] <= '9'
  }

  /** The localised medium date luxon writes for its `DD` macro token ("Aug 6, 2014" in
      English). It depends on the system locale, so it is a parameter. */
  type MediumDate = string -> string

  /** `formatDate(date)` with the default format as written. Luxon's formatter reads
      `'YYYY-MM-DD'` token by token: `YYYY` is not a luxon token and is copied as it
      stands, `MM` is the two-digit month and `DD` is the medium-date macro. */
  function FormatDateAsWritten(d: string, medium: MediumDate): (r: string)
    ensures |r| >= 5 && r[..5] == "YYYY-"
    ensures IsDay(d) ==> |r| == 8 + |medium(d)| && r[5..7] == d[5..7] && r[8..] == medium(d)
  {
    "YYYY-" + (if |d| >= 7 then d[5..7] else "") + "-" + medium(d)
  }

  /** As written, a formatted date is never a `yyyy-MM-dd` day, in any locale. */
  lemma AsWrittenIsNeverADay(d: string, medium: MediumDate)
    ensures !IsDay(FormatDateAsWritten(d, medium))
  {
    var r := FormatDateAsWritten(d, medium);
    assert r[0] == 'Y';
  }

  /** `formatDate(date)` with the format evidently intended, `'yyyy-MM-dd'` (the one the
      nightly snapshot job passes explicitly): a day comes back as that same day. */
  function FormatDate(d: string): (r: string)
    ensures IsDay(d) ==> IsDay(r) && r == d
  {
    d
  }
}
