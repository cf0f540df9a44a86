/**
 The ordering of the alert list view: a sort with a comparator that puts
 higher-rank priorities first. The language's array sort is stable
 (section 22.1.3.27 of ECMA-262, 10th edition), so alerts of equal
 priority keep their relative order. The sort is modelled here as an
 insertion sort driven by the same comparator; since a stable sort by a
 three-valued key has exactly one possible result (all high alerts, then
 all medium, then all low, each group in list order), any stable sort
 the engine uses produces the same list.
 */
module Ordering {
  import opened Scoring
  import opened Generator
  import opened Stats

  /**
   The list view's comparator: the rank of `b` minus the rank of `a`.
   Negative puts `a` first, positive puts `b` first, zero keeps their order.
   */
  function Compare(a: Alert, b: Alert): (c: int)
    ensures c < 0 <==> Rank(a.priority) > Rank(b.priority)
    ensures c > 0 <==> Rank(a.priority) < Rank(b.priority)
    ensures c == 0 <==> a.priority == b.priority
    ensures -2 <= c <= 2
  {
    Rank(b.priority) - Rank(a.priority)
  }

  /** Ranks are non-increasing along the list. */
  ghost predicate SortedByRank(s: seq<Alert>)
  {
    forall i, j :: 0 <= i < j < |s| ==> Rank(s[i].priority) >= Rank(s[j].priority)
  }

  /** `r` keeps the relative order of every priority class of `s`. */
  ghost predicate StableWrt(r: seq<Alert>, s: seq<Alert>)
  {
    forall p :: Filter(r, p) == Filter(s, p)
  }

  /** The reference result: high alerts, then medium, then low, each in list order. */
  function Grouped(s: seq<Alert>): seq<Alert>
  {
    Filter(s, High) + Filter(s, Medium) + Filter(s, Low)
  }

  /**
   Inserts `x` into `t` before the first element it does not sort after,
   so `x` precedes every element of its own priority.
   */
  function Insert(x: Alert, t: seq<Alert>): (r: seq<Alert>)
    ensures multiset(r) == multiset(t) + multiset{x}
    ensures |r| == |t| + 1
  {
    if |t| == 0 then [x]
    else if Compare(x, t[0]) <= 0 then [x] + t
    else
      assert t == [t[0]] + t[1..];
      [t[0]] + Insert(x, t[1..])
  }

  lemma {:induction false} InsertSorted(x: Alert, t: seq<Alert>)
    requires SortedByRank(t)
    ensures SortedByRank(Insert(x, t))
  {
    if |t| > 0 && Compare(x, t[0]) > 0 {
      var rest := Insert(x, t[1..]);
      InsertSorted(x, t[1..]);
      forall j | 0 <= j < |rest|
        ensures Rank(rest[j].priority) <= Rank(t[0].priority)
      {
        assert rest[j] in multiset(rest);
        assert rest[j] in multiset(t[1..]) + multiset{x};
        if rest[j] != x {
          var k :| 1 <= k < |t| && t[k] == rest[j];
        }
      }
      assert Insert(x, t) == [t[0]] + rest;
    }
  }

  lemma {:induction false} FilterCons(x: Alert, t: seq<Alert>, p: Priority)
    ensures Filter([x] + t, p) == (if x.priority == p then [x] else []) + Filter(t, p)
  {
    assert ([x] + t)[1..] == t;
  }

  lemma {:induction false} InsertStable(x: Alert, t: seq<Alert>, p: Priority)
    ensures Filter(Insert(x, t), p) == Filter([x] + t, p)
  {
    if |t| > 0 && Compare(x, t[0]) > 0 {
      var rest := Insert(x, t[1..]);
      InsertStable(x, t[1..], p);
      FilterCons(t[0], rest, p);
      FilterCons(x, t[1..], p);
      FilterCons(x, t, p);
      FilterCons(t[0], t[1..], p);
      assert [t[0]] + t[1..] == t;
      assert Insert(x, t) == [t[0]] + rest;
    }
  }

  /**
   The list view's sort. The result is a permutation of the input, ranks
   are non-increasing along it, and each priority class keeps its order.
   */
  function SortByPriority(s: seq<Alert>): (r: seq<Alert>)
    ensures multiset(r) == multiset(s) && |r| == |s|
    ensures SortedByRank(r)
    ensures StableWrt(r, s)
  {
    if |s| == 0 then []
    else
      var rest := SortByPriority(s[1..]);
      InsertSorted(s[0], rest);
      assert s == [s[0]] + s[1..];
      assert forall p :: Filter(Insert(s[0], rest), p) == Filter(s, p) by {
        forall p
          ensures Filter(Insert(s[0], rest), p) == Filter(s, p)
        {
          InsertStable(s[0], rest, p);
          FilterCons(s[0], rest, p);
          FilterCons(s[0], s[1..], p);
        }
      }
      Insert(s[0], rest)
  }

  lemma {:induction false} FilterAbsent(s: seq<Alert>, p: Priority)
    requires forall y :: y in s ==> y.priority != p
    ensures Filter(s, p) == []
  {
    if |s| > 0 {
      FilterAbsent(s[1..], p);
    }
  }

  /** A list sorted by rank is already in grouped form. */
  lemma {:induction false} SortedIsGrouped(r: seq<Alert>)
    requires SortedByRank(r)
    ensures r == Grouped(r)
  {
    if |r| > 0 {
      SortedTail(r);
      SortedIsGrouped(r[1..]);
      GroupedCons(r[0], r[1..]);
      assert r == [r[0]] + r[1..];
      assert r == [r[0]] + Grouped(r[1..]);
    }
  }

  /** The tail of a sorted list is sorted, and bounded by its head. */
  lemma SortedTail(r: seq<Alert>)
    requires SortedByRank(r) && |r| > 0
    ensures SortedByRank(r[1..])
    ensures forall y :: y in r[1..] ==> Rank(y.priority) <= Rank(r[0].priority)
  {
  }

  /** Putting an alert in front of a list of no higher rank puts it at the head of the grouped form. */
  lemma GroupedCons(x: Alert, t: seq<Alert>)
    requires forall y :: y in t ==> Rank(y.priority) <= Rank(x.priority)
    ensures Grouped([x] + t) == [x] + Grouped(t)
  {
    FilterCons(x, t, High);
    FilterCons(x, t, Medium);
    FilterCons(x, t, Low);
    match x.priority
    case High =>
      GroupedConsHigh(x, t);
    case Medium =>
      FilterAbsent(t, High);
      GroupedConsLower(x, t);
    case Low =>
      FilterAbsent(t, High);
      FilterAbsent(t, Medium);
      GroupedConsLower(x, t);
  }

  lemma GroupedConsHigh(x: Alert, t: seq<Alert>)
    requires Filter([x] + t, High) == [x] + Filter(t, High)
    requires Filter([x] + t, Medium) == Filter(t, Medium)
    requires Filter([x] + t, Low) == Filter(t, Low)
    ensures Grouped([x] + t) == [x] + Grouped(t)
  {
    ConsAssoc(x, Filter(t, High), Filter(t, Medium), Filter(t, Low));
  }

  lemma ConsAssoc(x: Alert, h: seq<Alert>, m: seq<Alert>, l: seq<Alert>)
    ensures ([x] + h) + m + l == [x] + (h + m + l)
  {
  }

  lemma GroupedConsLower(x: Alert, t: seq<Alert>)
    requires Filter(t, High) == [] && Filter([x] + t, High) == []
    requires x.priority == Medium || Filter(t, Medium) == Filter([x] + t, Medium) == []
    requires x.priority == Medium ==> Filter([x] + t, Medium) == [x] + Filter(t, Medium)
    requires x.priority == Medium ==> Filter([x] + t, Low) == Filter(t, Low)
    requires x.priority == Low ==> Filter([x] + t, Low) == [x] + Filter(t, Low)
    ensures Grouped([x] + t) == [x] + Grouped(t)
  {
  }

  /**
   Any sorted, stable rearrangement of the list is the grouped list, so
   every conforming engine's stable sort returns the same result as this
   model.
   */
  lemma StableSortUnique(r: seq<Alert>, s: seq<Alert>)
    requires SortedByRank(r) && StableWrt(r, s)
    ensures r == Grouped(s)
    ensures r == SortByPriority(s)
  {
    SortedIsGrouped(r);
    SortedIsGrouped(SortByPriority(s));
  }

  /** Sorting does not change the per-class counts the summary line shows. */
  lemma SortKeepsDistribution(s: seq<Alert>)
    ensures Distribution(SortByPriority(s)) == Distribution(s)
  {
  }

  /** Sorting an already sorted list leaves it unchanged. */
  lemma SortIdempotent(s: seq<Alert>)
    ensures SortByPriority(SortByPriority(s)) == SortByPriority(s)
  {
    var r := SortByPriority(s);
    StableSortUnique(r, r);
    StableSortUnique(r, s);
  }
}
