/**
 * `timeAgo` of the comment panel: a millisecond difference `now - date`
 * shown as "just now", "N minute(s) ago", "N hour(s) ago" or "N day(s) ago".
 * Reading the clock and parsing the date string are outside the model: the
 * difference is the input.
 */
module RelativeTime {

  const MsPerMinute: int := 60_000
  const MsPerHour: int := 60 * MsPerMinute
  const MsPerDay: int := 24 * MsPerHour

  datatype Unit = Minute | Hour | Day

  /** Which of the four phrasings applies, and with what count. */
  datatype Label = JustNow | Ago(count: int, unit: Unit)

  function UnitMs(u: Unit): int {
    match u
    case Minute => MsPerMinute
    case Hour => MsPerHour
    case Day => MsPerDay
  }

  /**
   * The bucket `timeAgo` chooses. Every division has a positive divisor, so
   * Dafny's `/` is `timeAgo`'s `Math.floor` of the quotient, negative
   * differences (dates in the future) included.
   */
  function Bucket(diff: int): (r: Label)
    ensures r == JustNow <==> diff < MsPerMinute
    ensures r.Ago? ==> 1 <= r.count && r.count * UnitMs(r.unit) <= diff < (r.count + 1) * UnitMs(r.unit)
    ensures r.Ago? ==> (r.unit == Minute <==> diff < MsPerHour) && (r.unit == Day <==> MsPerDay <= diff)
  {
    var minutes := diff / 1000 / 60;
    if minutes < 1 then JustNow
    else if minutes < 60 then Ago(minutes, Minute)
    else
      var hours := minutes / 60;
      if hours < 24 then Ago(hours, Hour)
      else
        Ago(hours / 24, Day)
  }

  /** The decimal numeral of `n`, as JavaScript prints a non-negative integer. */
  function Decimal(n: nat): (s: string)
    ensures 1 <= |s|
    ensures forall i | 0 <= i < |s| :: '0' <= s[i] <= '9'
    ensures s[0] == '0' ==> n == 0
  {
    if n < 10 then [Digit(n)] else Decimal(n / 10) + [Digit(n % 10)]
  }

  function Digit(d: nat): (c: char)
    requires d < 10
    ensures '0' <= c <= '9' && c as int - '0' as int == d
  {
    (d + '0' as int) as char
  }

  /** The value of a string of decimal digits (the reading partner of `Decimal`). */
  function DigitsValue(s: string): nat
    requires forall i | 0 <= i < |s| :: '0' <= s[i] <= '9'
  {
    if s == [] then 0
    else DigitsValue(s[..|s| - 1]) * 10 + (s[|s| - 1] as int - '0' as int)
  }

  /** Printing a count and reading it back gives the count. */
  lemma {:induction false} DecimalRoundTrip(n: nat)
    ensures DigitsValue(Decimal(n)) == n
  {
    if n >= 10 {
      var s := Decimal(n);
      assert s[..|s| - 1] == Decimal(n / 10);
      DecimalRoundTrip(n / 10);
    }
  }

  function UnitWord(u: Unit): string {
    match u
    case Minute => "minute"
    case Hour => "hour"
    case Day => "day"
  }

  /** The text shown for a label: the count, the unit, "s" unless the count is 1, "ago". */
  function Text(l: Label): (s: string)
    requires l.Ago? ==> 0 <= l.count
    ensures l == JustNow <==> s == "just now"
    ensures l.Ago? ==> |s| > 0 && '0' <= s[0] <= '9'
  {
    match l
    case JustNow => "just now"
    case Ago(n, u) => Decimal(n) + " " + UnitWord(u) + (if n == 1 then "" else "s") + " ago"
  }

  /** `timeAgo(date)` where `diff` is `now - date` in milliseconds. */
  function TimeAgo(diff: int): (s: string)
    ensures s == "just now" <==> diff < MsPerMinute
  {
    Text(Bucket(diff))
  }

  /** The plural "s" appears exactly when the count is not 1. */
  lemma PluralUnlessOne(diff: int)
    requires Bucket(diff).Ago?
    ensures var s := TimeAgo(diff);
            |s| >= 5 && (s[|s| - 5..] == "s ago" <==> Bucket(diff).count != 1)
  {
    var n := Bucket(diff).count;
    var s := TimeAgo(diff);
    var w := UnitWord(Bucket(diff).unit);
    var head := Decimal(n) + " " + w;
    if n == 1 {
      assert s == head + " ago";
      assert s[|s| - 5] == w[|w| - 1] != 's';
    } else {
      assert s == head + "s ago";
    }
  }

  /** The number printed in the text is the count of whole units elapsed. */
  lemma {:induction false} TextStartsWithCount(diff: int)
    requires Bucket(diff).Ago?
    ensures var n := Bucket(diff).count; var d := Decimal(n);
            TimeAgo(diff)[..|d|] == d && TimeAgo(diff)[|d|] == ' '
            && DigitsValue(d) == n
  {
    DecimalRoundTrip(Bucket(diff).count);
  }

  /** From one minute up to one hour: "m minute ago" for m = 1, "m minutes ago" otherwise. */
  lemma MinutesText(diff: int)
    requires MsPerMinute <= diff < MsPerHour
    ensures var m := diff / MsPerMinute;
            TimeAgo(diff) == Decimal(m) + (if m == 1 then " minute ago" else " minutes ago")
  {
    var l := Bucket(diff);
    assert l.unit == Minute;
    assert l.count == diff / MsPerMinute;
  }

  /** From one hour up to one day: "h hour ago" for h = 1, "h hours ago" otherwise. */
  lemma HoursText(diff: int)
    requires MsPerHour <= diff < MsPerDay
    ensures var h := diff / MsPerHour;
            TimeAgo(diff) == Decimal(h) + (if h == 1 then " hour ago" else " hours ago")
  {
    var l := Bucket(diff);
    assert l.unit == Hour;
    assert l.count == diff / MsPerHour;
  }

  /** From one day on: "d day ago" for d = 1, "d days ago" otherwise. */
  lemma DaysText(diff: int)
    requires MsPerDay <= diff
    ensures var d := diff / MsPerDay;
            TimeAgo(diff) == Decimal(d) + (if d == 1 then " day ago" else " days ago")
  {
    var l := Bucket(diff);
    assert l.unit == Day;
    assert l.count == diff / MsPerDay;
  }
}
