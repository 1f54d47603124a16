/** The French "time ago" captions both pages print under a photo: the
    caption buckets, their text, and a reading of what each bucket means in
    whole elapsed minutes, hours, days or weeks. */
module TimeLabels {
  import opened Wrappers
  import opened Numerals

  const MinuteMs := 60000
  const HourMs := 3600000
  const DayMs := 86400000
  const WeekMs := 604800000

  const JustNowText := "À l'instant"
  const Prefix := "Il y a "

  /** A caption: "just now", or a count of whole units. */
  datatype Bucket = JustNow | Minutes(n: int) | Hours(n: int) | Days(n: int) | Weeks(n: int)

  /** The unit suffix written after the count. */
  function Suffix(b: Bucket): string
    requires !b.JustNow?
  {
    match b
    case Minutes(_) => " min"
    case Hours(_) => "h"
    case Days(_) => " jours"
    case Weeks(_) => " semaines"
  }

  /** The caption text of a bucket; only the "just now" bucket gives
      "À l'instant". */
  function Label(b: Bucket): (s: string)
    ensures s == JustNowText <==> b.JustNow?
  {
    if b.JustNow? then JustNowText
    else
      var s := Prefix + IntToString(b.n) + Suffix(b);
      assert s[0] == 'I' != JustNowText[0];
      s
  }

  /** Reads a caption back into its bucket. */
  function ParseLabel(s: string): Option<Bucket> {
    if s == JustNowText then Some(JustNow)
    else if |s| < |Prefix| || s[..|Prefix|] != Prefix then None
    else ParseCount(s[|Prefix|..])
  }

  /** Reads the count and the unit that follow the prefix. */
  function ParseCount(rest: string): Option<Bucket> {
    match ScanInt(rest)
    case None => None
    case Some((n, unit)) =>
      if unit == " min" then Some(Minutes(n))
      else if unit == "h" then Some(Hours(n))
      else if unit == " jours" then Some(Days(n))
      else if unit == " semaines" then Some(Weeks(n))
      else None
  }

  /** Every caption reads back as the bucket it was printed from, so two
      different buckets never share a caption. */
  lemma ParseLabelOfLabel(b: Bucket)
    ensures ParseLabel(Label(b)) == Some(b)
  {
    if !b.JustNow? {
      var rest := IntToString(b.n) + Suffix(b);
      LabelAfterPrefix(b);
      ParseCountOfCount(b);
      assert Label(b)[|Prefix|..] == rest;
    }
  }

  lemma LabelAfterPrefix(b: Bucket)
    requires !b.JustNow?
    ensures |Label(b)| >= |Prefix|
    ensures Label(b)[..|Prefix|] == Prefix
    ensures Label(b)[|Prefix|..] == IntToString(b.n) + Suffix(b)
  {
    var rest := IntToString(b.n) + Suffix(b);
    assert Label(b) == Prefix + rest;
  }

  lemma ParseCountOfCount(b: Bucket)
    requires !b.JustNow?
    ensures ParseCount(IntToString(b.n) + Suffix(b)) == Some(b)
  {
    ScanIntOfIntToString(b.n, Suffix(b));
  }

  /** The caption for an elapsed time of `diffMs` milliseconds, stated by
      thresholds on the time itself: the largest unit that has fully
      elapsed, counted in whole units. With `justNow` a time under a minute
      is "just now"; without it such a time counts (possibly zero or
      negative) minutes. */
  function Elapsed(diffMs: int, justNow: bool): (b: Bucket)
    ensures b.JustNow? <==> justNow && diffMs < MinuteMs
    ensures b.Minutes? ==> b.n * MinuteMs <= diffMs < (b.n + 1) * MinuteMs && b.n < 60
    ensures b.Minutes? && justNow ==> 1 <= b.n
    ensures b.Hours? ==> b.n * HourMs <= diffMs < (b.n + 1) * HourMs && 1 <= b.n < 24
    ensures b.Days? ==> b.n * DayMs <= diffMs < (b.n + 1) * DayMs && 1 <= b.n < 7
    ensures b.Weeks? ==> b.n * WeekMs <= diffMs < (b.n + 1) * WeekMs && 1 <= b.n
  {
    if justNow && diffMs < MinuteMs then JustNow
    else if diffMs < HourMs then Minutes(diffMs / MinuteMs)
    else if diffMs < DayMs then Hours(diffMs / HourMs)
    else if diffMs < WeekMs then Days(diffMs / DayMs)
    else Weeks(diffMs / WeekMs)
  }

  /** Counting whole days and then whole weeks of those days is counting
      whole weeks. */
  lemma WeeksOfDays(diffMs: int)
    ensures (diffMs / DayMs) / 7 == diffMs / WeekMs
  {
    var d := diffMs / DayMs;
    var w := d / 7;
    assert d * DayMs <= diffMs < (d + 1) * DayMs;
    assert 7 * w <= d < 7 * w + 7;
    assert w * WeekMs <= diffMs by {
      assert w * WeekMs == (7 * w) * DayMs;
      MulMonotone(7 * w, d, DayMs);
    }
    assert diffMs < (w + 1) * WeekMs by {
      assert (w + 1) * WeekMs == (7 * w + 7) * DayMs;
      MulMonotone(d + 1, 7 * w + 7, DayMs);
    }
    FloorUnique(diffMs, WeekMs, w);
  }

  lemma MulMonotone(a: int, b: int, c: nat)
    requires a <= b
    ensures a * c <= b * c
  {
  }

  /** The floor quotient is the only `q` with `q * d <= x < (q + 1) * d`. */
  lemma FloorUnique(x: int, d: int, q: int)
    requires d > 0 && q * d <= x < (q + 1) * d
    ensures x / d == q
  {
    var r := x / d;
    assert r * d <= x < (r + 1) * d;
    if r < q {
      MulMonotone(r + 1, q, d);
    } else if r > q {
      MulMonotone(q + 1, r, d);
    }
  }
}
