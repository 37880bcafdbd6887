/** The inverse of the `duration` converters: a number of seconds written
    back as days, hours, minutes and seconds. Composing a breakdown with the
    converters and splitting the result again are mutual inverses. */
module DurationBreakdown {
  import opened Duration

  /** A mixed-unit amount. */
  datatype Breakdown = Breakdown(days: int, hours: int, minutes: int, seconds: int)

  /** Each part below its carry: hours < 24, minutes < 60, seconds < 60. */
  predicate Normal(b: Breakdown)
  {
    && 0 <= b.hours < 24
    && 0 <= b.minutes < 60
    && 0 <= b.seconds < 60
  }

  /** Seconds in a breakdown, summed through the helper's converters. */
  function Compose(b: Breakdown): (s: int)
    ensures s == 86400 * b.days + 3600 * b.hours + 60 * b.minutes + b.seconds
  {
    Days(b.days) + Hours(b.hours) + Minutes(b.minutes) + Seconds(b.seconds)
  }

  /** Splits `s` into whole days and the normalised remainder. */
  function Split(s: int): (b: Breakdown)
    ensures Normal(b)
    ensures Compose(b) == s
  {
    var rest := s % Days(1);
    var rest2 := rest % Hours(1);
    Breakdown(s / Days(1), rest / Hours(1), rest2 / Minutes(1), rest2 % Minutes(1))
  }

  /** A normalised breakdown survives composing then splitting. */
  lemma SplitCompose(b: Breakdown)
    requires Normal(b)
    ensures Split(Compose(b)) == b
  {
    var s := Compose(b);
    var rest := 3600 * b.hours + 60 * b.minutes + b.seconds;
    assert s == 86400 * b.days + rest && 0 <= rest < 86400;
    assert s / 86400 == b.days && s % 86400 == rest;
    assert rest / 3600 == b.hours && rest % 3600 == 60 * b.minutes + b.seconds;
  }

  /** Splitting is injective and composing is its left inverse: two amounts
      of seconds are equal exactly when their breakdowns are. */
  lemma SplitInjective(s: int, t: int)
    ensures Split(s) == Split(t) <==> s == t
  {
  }
}
