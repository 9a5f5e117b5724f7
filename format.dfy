/** Relative time labels (apps/console/src/lib/format.ts). The clock reading and the parsed instant
    are inputs; an instant that does not parse is `None` (JavaScript's NaN). Locale formatting
    (`formatDate`, `formatDateTime`, `formatCurrency`) is not modelled: its text is an input. */
module Format {
  import opened Wrappers
  import opened Text

  const MinuteMs := 60_000
  const HourMs := 60 * MinuteMs
  const DayMs := 24 * HourMs

  /** The three forms `formatDate` and `formatDateTime` accept. */
  datatype DateArg = DateValue(ms: Option<int>) | StringValue(text: string) | NumberValue(seconds: int)

  /** The instant `formatDate`/`formatDateTime` format: a number counts as Unix seconds. */
  function InstantOf(arg: DateArg, parse: string -> Option<int>): (ms: Option<int>)
    ensures arg.NumberValue? ==> ms == Some(arg.seconds * 1000)
    ensures arg.StringValue? ==> ms == parse(arg.text)
    ensures arg.DateValue? ==> ms == arg.ms
  {
    match arg
    case DateValue(ms) => ms
    case StringValue(text) => parse(text)
    case NumberValue(seconds) => Some(seconds * 1000)
  }

  /** A number of seconds names the same instant as the date at that many milliseconds times a
      thousand, and the seconds can be read back from it; later seconds are later instants. */
  lemma NumberIsSeconds(seconds: int, later: int, parse: string -> Option<int>)
    requires seconds < later
    ensures InstantOf(NumberValue(seconds), parse) == InstantOf(DateValue(Some(seconds * 1000)), parse)
    ensures InstantOf(NumberValue(seconds), parse).value / 1000 == seconds
    ensures InstantOf(NumberValue(seconds), parse).value + 1000 <= InstantOf(NumberValue(later), parse).value
  {
  }

  /** The bucket `formatRelative` puts an age into. */
  datatype Relative = JustNow | MinutesAgo(minutes: int) | HoursAgo(hours: int) | DaysAgo(days: int) | Absolute

  /** The age bucket of a difference `diff = now - date` in milliseconds, computed as the source does:
      whole minutes, then whole hours of those, then whole days of those. */
  function BucketOf(diff: int): (r: Relative)
    ensures r == JustNow <==> diff < MinuteMs
    ensures r.MinutesAgo? <==> MinuteMs <= diff < HourMs
    ensures r.HoursAgo? <==> HourMs <= diff < DayMs
    ensures r.DaysAgo? <==> DayMs <= diff < 30 * DayMs
    ensures r == Absolute <==> 30 * DayMs <= diff
    ensures r.MinutesAgo? ==> r.minutes == diff / MinuteMs && 1 <= r.minutes < 60
    ensures r.HoursAgo? ==> r.hours == diff / HourMs && 1 <= r.hours < 24
    ensures r.DaysAgo? ==> r.days == diff / DayMs && 1 <= r.days < 30
  {
    var minutes := diff / MinuteMs;
    if minutes < 1 then JustNow
    else if minutes < 60 then MinutesAgo(minutes)
    else
      var hours := minutes / 60;
      if hours < 24 then HoursAgo(hours)
      else
        var days := hours / 24;
        if days < 30 then DaysAgo(days) else Absolute
  }

  /** The buckets in order of age. */
  function Rank(r: Relative): nat {
    match r
    case JustNow => 0
    case MinutesAgo(_) => 1
    case HoursAgo(_) => 2
    case DaysAgo(_) => 3
    case Absolute => 4
  }

  /** The count a bucket shows (none for "just now" and for the absolute date). */
  function Count(r: Relative): int {
    match r
    case MinutesAgo(m) => m
    case HoursAgo(h) => h
    case DaysAgo(d) => d
    case _ => 0
  }

  /** An older date never lands in a younger bucket, and within one bucket never shows a smaller count. */
  lemma BucketMonotone(d1: int, d2: int)
    requires d1 <= d2
    ensures Rank(BucketOf(d1)) <= Rank(BucketOf(d2))
    ensures Rank(BucketOf(d1)) == Rank(BucketOf(d2)) ==> Count(BucketOf(d1)) <= Count(BucketOf(d2))
  {
  }

  /** The label for a bucket; `formattedDate` is what `formatDate(date)` returns. */
  function Render(r: Relative, formattedDate: string): string {
    match r
    case JustNow => "just now"
    case MinutesAgo(m) => IntToString(m) + "m ago"
    case HoursAgo(h) => IntToString(h) + "h ago"
    case DaysAgo(d) => IntToString(d) + "d ago"
    case Absolute => formattedDate
  }

  /** `formatRelative(date)` at clock reading `nowMs`. A date that does not parse makes every
      comparison false in the source, so it falls through to `formatDate`. */
  function FormatRelative(nowMs: int, instant: Option<int>, formattedDate: string): (s: string)
    ensures instant.None? ==> s == formattedDate
    ensures instant.Some? && nowMs - instant.value < MinuteMs ==> s == "just now"
    ensures instant.Some? && MinuteMs <= nowMs - instant.value < HourMs ==>
              s == IntToString((nowMs - instant.value) / MinuteMs) + "m ago"
    ensures instant.Some? && HourMs <= nowMs - instant.value < DayMs ==>
              s == IntToString((nowMs - instant.value) / HourMs) + "h ago"
    ensures instant.Some? && DayMs <= nowMs - instant.value < 30 * DayMs ==>
              s == IntToString((nowMs - instant.value) / DayMs) + "d ago"
    ensures instant.Some? && 30 * DayMs <= nowMs - instant.value ==> s == formattedDate
  {
    match instant
    case None => formattedDate
    case Some(t) => Render(BucketOf(nowMs - t), formattedDate)
  }

  /** Two counted labels are equal only for the same bucket and count: the label can be read back. */
  lemma RenderDistinguishes(r1: Relative, r2: Relative, f: string)
    requires r1.MinutesAgo? || r1.HoursAgo? || r1.DaysAgo?
    requires r2.MinutesAgo? || r2.HoursAgo? || r2.DaysAgo?
    requires Count(r1) >= 1 && Count(r2) >= 1
    requires Render(r1, f) == Render(r2, f)
    ensures r1 == r2
  {
    var s := Render(r1, f);
    var n1, n2 := NatToString(Count(r1)), NatToString(Count(r2));
    assert s == n1 + s[|n1|..] && s == n2 + s[|n2|..];
    assert |s| == |n1| + 5 == |n2| + 5;
    assert s[..|n1|] == n1 && s[..|n2|] == n2;
    NatToStringInjective(Count(r1), Count(r2));
    assert s[|s| - 5] == (if r1.MinutesAgo? then 'm' else if r1.HoursAgo? then 'h' else 'd');
    assert s[|s| - 5] == (if r2.MinutesAgo? then 'm' else if r2.HoursAgo? then 'h' else 'd');
  }
}
