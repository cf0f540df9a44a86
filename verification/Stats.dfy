/**
 The counts the dashboard shows for the current alert list: alerts per
 priority class (the summary line and the doughnut chart) and alerts per
 hour of day (the 24-point timeline chart).
 */
module Stats {
  import opened Scoring
  import opened Generator

  /** The alerts of priority `p`, in list order. */
  function Filter(s: seq<Alert>, p: Priority): (r: seq<Alert>)
    ensures |r| <= |s|
    ensures forall a :: a in r ==> a.priority == p
    ensures forall a {:trigger multiset(r)[a]} :: multiset(r)[a] == if a.priority == p then multiset(s)[a] else 0
  {
    if |s| == 0 then []
    else
      assert s == [s[0]] + s[1..];
      if s[0].priority == p then [s[0]] + Filter(s[1..], p)
      else Filter(s[1..], p)
  }

  lemma {:induction false} FilterAppend(a: seq<Alert>, b: seq<Alert>, p: Priority)
    ensures Filter(a + b, p) == Filter(a, p) + Filter(b, p)
  {
    if |a| == 0 {
      assert a + b == b;
    } else {
      assert (a + b)[1..] == a[1..] + b;
      FilterAppend(a[1..], b, p);
    }
  }

  /** Every alert of priority `p` in the list survives the filter. */
  lemma {:induction false} FilterKeepsAll(s: seq<Alert>, p: Priority, a: Alert)
    requires a in s && a.priority == p
    ensures a in Filter(s, p)
  {
    if s[0] != a {
      FilterKeepsAll(s[1..], p, a);
    }
  }

  function Count(s: seq<Alert>, p: Priority): nat
  {
    |Filter(s, p)|
  }

  datatype PriorityCounts = PriorityCounts(high: nat, medium: nat, low: nat)

  /** The per-class counts of the summary line; `low` is also the false-positive count. */
  function Distribution(s: seq<Alert>): (d: PriorityCounts)
    ensures d.high == Count(s, High) && d.medium == Count(s, Medium) && d.low == Count(s, Low)
    ensures d.high + d.medium + d.low == |s|
  {
    CountsPartition(s);
    PriorityCounts(Count(s, High), Count(s, Medium), Count(s, Low))
  }

  /** The three classes partition the list: every alert is counted in exactly one. */
  lemma {:induction false} CountsPartition(s: seq<Alert>)
    ensures Count(s, High) + Count(s, Medium) + Count(s, Low) == |s|
  {
    if |s| > 0 {
      CountsPartition(s[1..]);
    }
  }

  /** Alerts stamped with hour `h`. */
  function CountAtHour(s: seq<Alert>, h: int): (n: nat)
    ensures n <= |s|
  {
    if |s| == 0 then 0
    else CountAtHour(s[..|s| - 1], h) + (if s[|s| - 1].hour == h then 1 else 0)
  }

  function Sum(b: seq<nat>): nat
  {
    if |b| == 0 then 0 else b[0] + Sum(b[1..])
  }

  lemma {:induction false} SumIncrement(b: seq<nat>, k: nat)
    requires k < |b|
    ensures Sum(b[k := b[k] + 1]) == Sum(b) + 1
  {
    if k > 0 {
      assert b[k := b[k] + 1][1..] == b[1..][k - 1 := b[k] + 1];
      SumIncrement(b[1..], k - 1);
    }
  }

  lemma {:induction false} SumZeros(n: nat)
    ensures Sum(seq(n, _ => 0)) == 0
  {
    if n > 0 {
      assert seq(n, _ => 0)[1..] == seq(n - 1, _ => 0);
      SumZeros(n - 1);
    }
  }

  /**
   The timeline data: 24 buckets, each incremented once per alert stamped
   with its hour. Every alert lands in exactly one bucket, so the buckets
   add up to the list length.
   */
  method HourlyBuckets(alerts: seq<Alert>) returns (buckets: seq<nat>)
    ensures |buckets| == 24
    ensures forall h :: 0 <= h < 24 ==> buckets[h] == CountAtHour(alerts, h)
    ensures Sum(buckets) == |alerts|
  {
    buckets := seq(24, _ => 0);
    SumZeros(24);
    var i := 0;
    while i < |alerts|
      invariant i <= |alerts|
      invariant |buckets| == 24
      invariant forall h :: 0 <= h < 24 ==> buckets[h] == CountAtHour(alerts[..i], h)
      invariant Sum(buckets) == i
    {
      var hour := alerts[i].hour;
      SumIncrement(buckets, hour);
      assert alerts[..i + 1][..i] == alerts[..i];
      buckets := buckets[hour := buckets[hour] + 1];
      i := i + 1;
    }
    assert alerts[..i] == alerts;
  }
}
