/** The `duration` helper of the test suite: converters that turn a count of
    seconds, minutes, hours or days into a number of seconds, meant as the
    argument of the helper's clock-advance function `increase`.

    Each converter is written as in the helper: through the next smaller unit
    (`minutes(v) = v * seconds(60)`, `hours(v) = v * minutes(60)`,
    `days(v) = v * hours(24)`). Their closed forms are their contracts; the
    lemmas below relate them to an independent table of seconds per unit and
    prove their algebra. */
module Duration {

  /** `seconds(val)` returns its argument unchanged. */
  function Seconds(v: int): (r: int)
    ensures r == v
  {
    v
  }

  /** `minutes(val)` is `val` times the seconds in sixty seconds. */
  function Minutes(v: int): (r: int)
    ensures r == 60 * v
    ensures r == Seconds(60 * v)
  {
    v * Seconds(60)
  }

  /** `hours(val)` is `val` times the seconds in sixty minutes. */
  function Hours(v: int): (r: int)
    ensures r == 3600 * v
    ensures r == Minutes(60 * v)
  {
    v * Minutes(60)
  }

  /** `days(val)` is `val` times the seconds in twenty-four hours. */
  function Days(v: int): (r: int)
    ensures r == 86400 * v
    ensures r == Hours(24 * v)
  {
    v * Hours(24)
  }

  /** The four units the helper offers, smallest first. */
  datatype Unit = Second | Minute | Hour | Day

  /** Reference table, independent of the converters: seconds in one unit. */
  function SecondsPer(u: Unit): nat
  {
    match u
    case Second => 1
    case Minute => 60
    case Hour => 3600
    case Day => 86400
  }

  /** Calls the helper's converter for unit `u`, as `duration[u](v)`. */
  function Convert(u: Unit, v: int): (r: int)
    ensures r == SecondsPer(u) * v
  {
    match u
    case Second => Seconds(v)
    case Minute => Minutes(v)
    case Hour => Hours(v)
    case Day => Days(v)
  }

  /** A day is 86400 seconds, as the comment inside `increase` says, and the
      units chain consistently. */
  lemma OneDayChain()
    ensures Days(1) == 86400
    ensures Days(1) == Hours(24) == Minutes(1440) == Seconds(86400)
  {
  }

  /** Every converter maps zero to zero and is additive. */
  lemma ConvertLinear(u: Unit, a: int, b: int)
    ensures Convert(u, 0) == 0
    ensures Convert(u, a + b) == Convert(u, a) + Convert(u, b)
    ensures Convert(u, a - b) == Convert(u, a) - Convert(u, b)
  {
  }

  /** Every converter keeps non-negative amounts non-negative and preserves
      (strict) order in both directions, so it is injective. */
  lemma ConvertMonotone(u: Unit, a: int, b: int)
    ensures 0 <= a ==> 0 <= Convert(u, a)
    ensures a <= b <==> Convert(u, a) <= Convert(u, b)
    ensures a < b <==> Convert(u, a) < Convert(u, b)
    ensures Convert(u, a) == Convert(u, b) ==> a == b
  {
  }

  /** A non-negative amount of a larger unit is never fewer seconds than the
      same amount of a smaller unit. */
  lemma ConvertGrowsWithUnit(u: Unit, w: Unit, v: int)
    requires 0 <= v
    requires SecondsPer(u) <= SecondsPer(w)
    ensures Convert(u, v) <= Convert(w, v)
  {
  }

  /** Sum of a list of amounts. */
  function Sum(xs: seq<int>): int
  {
    if xs == [] then 0 else xs[0] + Sum(xs[1..])
  }

  /** Converts every amount of `xs`, which are all in unit `u`. */
  function ConvertAll(u: Unit, xs: seq<int>): (r: seq<int>)
    ensures |r| == |xs|
    ensures forall i :: 0 <= i < |xs| ==> r[i] == Convert(u, xs[i])
  {
    if xs == [] then [] else [Convert(u, xs[0])] + ConvertAll(u, xs[1..])
  }

  /** The converted amounts of a list sum to the converted total of the
      list. */
  lemma {:induction false} ConvertSum(u: Unit, xs: seq<int>)
    ensures Sum(ConvertAll(u, xs)) == Convert(u, Sum(xs))
  {
    if xs != [] {
      ConvertSum(u, xs[1..]);
      var ys := ConvertAll(u, xs);
      assert ys[1..] == ConvertAll(u, xs[1..]);
      ConvertLinear(u, xs[0], Sum(xs[1..]));
    }
  }
}
