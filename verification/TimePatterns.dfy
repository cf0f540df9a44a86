/**
 The time-of-day table of the alert generator and the hour lookup over it.

 The table has four named periods, each with a half-open hour range
 [start, end) and a false-positive rate. The lookup scans the periods in
 the table's insertion order and returns the first whose range contains
 the hour, falling back to `Night` when none does. The `Night` entry's
 range (22 to 6) wraps around midnight, which a single half-open test can
 never satisfy, so `Night` is only ever reached through the fallback.
 */
module TimePatterns {

  datatype Period = Morning | Afternoon | Evening | Night

  /** A local clock hour, as a timestamp's hour-of-day reading yields it. */
  type Hour = h: int | 0 <= h < 24

  /** One row of the table: a half-open hour range and a false-positive rate. */
  datatype TimePattern = TimePattern(start: int, end: int, falsePositiveRate: real)

  /** The fixed table contents. */
  function PatternOf(p: Period): TimePattern
  {
    match p
    case Morning => TimePattern(6, 12, 0.3)
    case Afternoon => TimePattern(12, 18, 0.4)
    case Evening => TimePattern(18, 22, 0.5)
    case Night => TimePattern(22, 6, 0.6)
  }

  /** The order in which the table's entries are visited (insertion order). */
  const TableOrder: seq<Period> := [Morning, Afternoon, Evening, Night]

  /** The range test applied to each entry during the scan. */
  predicate InRange(p: Period, hour: int)
  {
    PatternOf(p).start <= hour < PatternOf(p).end
  }

  /** The first period of `order` whose range contains `hour`, if any. */
  function FirstMatch(order: seq<Period>, hour: int): (r: Option<Period>)
    ensures r.Some? ==> r.value in order && InRange(r.value, hour)
    ensures r.None? ==> forall i :: 0 <= i < |order| ==> !InRange(order[i], hour)
  {
    if |order| == 0 then None
    else if InRange(order[0], hour) then Some(order[0])
    else FirstMatch(order[1..], hour)
  }

  datatype Option<T> = None | Some(value: T)

  /** The lookup as the dashboard performs it: first match in table order, else `Night`. */
  function LookupIn(order: seq<Period>, hour: int): Period
  {
    match FirstMatch(order, hour)
    case Some(p) => p
    case None => Night
  }

  /**
   The hour lookup of the alert generator. Hours 6-11 are morning, 12-17
   afternoon, 18-21 evening, and every other integer (including negative
   and out-of-day values) falls through to night.
   */
  function CurrentTimePattern(hour: int): (r: Period)
    ensures r == Morning <==> 6 <= hour < 12
    ensures r == Afternoon <==> 12 <= hour < 18
    ensures r == Evening <==> 18 <= hour < 22
    ensures r == Night <==> hour < 6 || 22 <= hour
  {
    TableFindsMatch(hour);
    LookupIn(TableOrder, hour)
  }

  /** Each day-time period is found by the scan whenever its range contains the hour. */
  lemma TableFindsMatch(hour: int)
    ensures InRange(Morning, hour) ==> FirstMatch(TableOrder, hour) == Some(Morning)
    ensures InRange(Afternoon, hour) ==> FirstMatch(TableOrder, hour) == Some(Afternoon)
    ensures InRange(Evening, hour) ==> FirstMatch(TableOrder, hour) == Some(Evening)
  {
    forall p | InRange(p, hour)
      ensures FirstMatch(TableOrder, hour) == Some(p)
    {
      MatchIsUnique(TableOrder, hour, p);
    }
  }

  /** The false-positive rate of the period the hour falls in. */
  function FalsePositiveRateAt(hour: int): (rate: real)
    ensures rate in {0.3, 0.4, 0.5, 0.6}
    ensures rate == 0.3 <==> 6 <= hour < 12
    ensures rate == 0.4 <==> 12 <= hour < 18
    ensures rate == 0.5 <==> 18 <= hour < 22
    ensures rate == 0.6 <==> hour < 6 || 22 <= hour
  {
    PatternOf(CurrentTimePattern(hour)).falsePositiveRate
  }

  /** The `Night` entry's own range test is unsatisfiable. */
  lemma NightNeverInRange(hour: int)
    ensures !InRange(Night, hour)
  {
  }

  /** The three matchable ranges are pairwise disjoint. */
  lemma RangesDisjoint(p: Period, q: Period, hour: int)
    requires p != q
    ensures !(InRange(p, hour) && InRange(q, hour))
  {
  }

  /** A period whose range contains the hour is found by the scan, wherever it sits in the order. */
  lemma MatchIsUnique(order: seq<Period>, hour: int, p: Period)
    requires p in order && InRange(p, hour)
    ensures FirstMatch(order, hour) == Some(p)
  {
  }

  /**
   The scan order does not matter: any visiting order of the table that
   includes the three day-time periods gives the same answer as the
   insertion order.
   */
  lemma LookupOrderIndependent(order: seq<Period>, hour: int)
    requires Morning in order && Afternoon in order && Evening in order
    ensures LookupIn(order, hour) == CurrentTimePattern(hour)
  {
  }

  /**
   The lookup a wraparound-aware range test would perform: night covers
   22-23 and 0-5. On every hour of the day it agrees with the dashboard's
   lookup, because the fallback masks the failing night range test.
   */
  function WraparoundPeriod(hour: int): Period
    requires 0 <= hour < 24
  {
    if hour >= 22 || hour < 6 then Night
    else if hour < 12 then Morning
    else if hour < 18 then Afternoon
    else Evening
  }

  lemma FallbackMasksWraparound(hour: int)
    requires 0 <= hour < 24
    ensures CurrentTimePattern(hour) == WraparoundPeriod(hour)
  {
  }
}
