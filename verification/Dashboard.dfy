/**
 The dashboard's alert list and its timer tick.

 On load the dashboard generates ten alerts and renders them; rendering
 the list view sorts the shared list in place. Each timer tick appends
 one generated alert, drops the element at index 0 when the list has
 grown past twenty, refreshes the counts and renders the list view again,
 which sorts the shared list once more. Because the list is kept sorted
 and the sort is stable, every priority class in the list is a queue in
 arrival order, and index 0 is the earliest-arrived alert of the highest
 priority present. The shift of a full tick runs after the push and
 before that tick's sort, so it removes the earliest-arrived alert of the
 highest priority among the alerts held before the push, which need not
 be the oldest alert.

 The timer itself is not modelled: a run is a sequence of ticks, one per
 arriving alert.
 */
module Dashboard {
  import opened Scoring
  import opened Generator
  import opened Stats
  import opened Ordering

  const InitialSize: nat := 10
  const Capacity: nat := 20

  function Min(a: int, b: int): int
  {
    if a <= b then a else b
  }

  /** `x` is what remains of `y` after dropping some elements from its front. */
  predicate IsSuffix(x: seq<Alert>, y: seq<Alert>)
    decreases |y|
  {
    x == y || (|y| > 0 && IsSuffix(x, y[1..]))
  }

  lemma {:induction false} SuffixAppend(x: seq<Alert>, y: seq<Alert>, z: seq<Alert>)
    requires IsSuffix(x, y)
    ensures IsSuffix(x + z, y + z)
    decreases |y|
  {
    if x != y {
      SuffixAppend(x, y[1..], z);
      assert (y + z)[1..] == y[1..] + z;
    }
  }

  lemma {:induction false} SuffixTransitive(x: seq<Alert>, y: seq<Alert>, z: seq<Alert>)
    requires IsSuffix(x, y) && IsSuffix(y, z)
    ensures IsSuffix(x, z)
    decreases |z|
  {
    if y != z {
      SuffixTransitive(x, y, z[1..]);
    }
  }

  /**
   The list update of one tick: push the new alert, then drop index 0 if
   the list is now longer than the capacity.
   */
  function Tick(alerts: seq<Alert>, a: Alert): (r: seq<Alert>)
    ensures 0 <= |alerts| + 1 - |r| <= 1
    ensures r == (alerts + [a])[|alerts| + 1 - |r|..]
    ensures |alerts| < Capacity ==> |r| == |alerts| + 1
    ensures |alerts| >= Capacity ==> |r| == |alerts|
    ensures r[|r| - 1] == a
    ensures InitialSize <= |alerts| <= Capacity ==> InitialSize <= |r| <= Capacity
  {
    var pushed := alerts + [a];
    if |pushed| > Capacity then pushed[1..] else pushed
  }

  /** The list after load: the initial alerts, sorted by the first render. */
  function Init(initial: seq<Alert>): (r: seq<Alert>)
    ensures multiset(r) == multiset(initial) && |r| == |initial|
    ensures SortedByRank(r)
    ensures StableWrt(r, initial)
  {
    SortByPriority(initial)
  }

  /** One timer callback as the dashboard runs it: the tick, then the in-place sort of the render. */
  function Step(alerts: seq<Alert>, a: Alert): (r: seq<Alert>)
    ensures multiset(r) == multiset(Tick(alerts, a)) && |r| == |Tick(alerts, a)|
    ensures SortedByRank(r)
    ensures StableWrt(r, Tick(alerts, a))
    ensures a in r
  {
    var t := Tick(alerts, a);
    assert a in multiset(t) by {
      assert t[|t| - 1] == a;
    }
    SortByPriority(t)
  }

  /**
   The list after one timer callback per arriving alert, in order. From a
   list within capacity the length grows by one per tick up to twenty, and
   after at least one tick the list is rank-sorted.
   */
  function Run(alerts: seq<Alert>, arrivals: seq<Alert>): (r: seq<Alert>)
    ensures |alerts| <= Capacity ==> |r| == Min(|alerts| + |arrivals|, Capacity)
    ensures |arrivals| > 0 || SortedByRank(alerts) ==> SortedByRank(r)
    decreases |arrivals|
  {
    if |arrivals| == 0 then alerts
    else Run(Step(alerts, arrivals[0]), arrivals[1..])
  }

  /** From a list within [10, 20], every run stays within [10, 20]. */
  lemma RunLength(alerts: seq<Alert>, arrivals: seq<Alert>)
    requires InitialSize <= |alerts| <= Capacity
    ensures |Run(alerts, arrivals)| == Min(|alerts| + |arrivals|, Capacity)
    ensures InitialSize <= |Run(alerts, arrivals)| <= Capacity
  {
  }

  /** Every list the dashboard holds after load is sorted by rank. */
  lemma RunSorted(initial: seq<Alert>, arrivals: seq<Alert>)
    ensures SortedByRank(Run(Init(initial), arrivals))
  {
  }

  /** Ten initial alerts and twenty-five ticks leave exactly twenty alerts. */
  lemma AfterTwentyFiveTicks(initial: seq<Alert>, arrivals: seq<Alert>)
    requires |initial| == InitialSize && |arrivals| == 25
    ensures |Run(Init(initial), arrivals)| == Capacity
  {
  }

  /**
   At capacity, a tick of the sorted list drops its head: an alert of the
   highest rank present. The new alert is added and nothing else changes.
   */
  lemma StepEvictsHead(alerts: seq<Alert>, a: Alert)
    requires SortedByRank(alerts) && |alerts| == Capacity
    ensures multiset(Step(alerts, a)) == multiset(alerts) - multiset{alerts[0]} + multiset{a}
    ensures forall y :: y in alerts ==> Rank(y.priority) <= Rank(alerts[0].priority)
  {
    assert alerts == [alerts[0]] + alerts[1..];
    assert Tick(alerts, a) == alerts[1..] + [a];
  }

  /** The head of a list is the first alert of its own priority class. */
  lemma HeadLeadsItsClass(alerts: seq<Alert>)
    requires |alerts| > 0
    ensures var c := Filter(alerts, alerts[0].priority); |c| > 0 && c[0] == alerts[0]
  {
    assert alerts == [alerts[0]] + alerts[1..];
    FilterCons(alerts[0], alerts[1..], alerts[0].priority);
  }

  /**
   The new alert is the last of its priority class after the tick's sort:
   it keeps the position the push gave it relative to its equals.
   */
  lemma StepNewestLastInClass(alerts: seq<Alert>, a: Alert)
    ensures var c := Filter(Step(alerts, a), a.priority); |c| > 0 && c[|c| - 1] == a
  {
    var t := Tick(alerts, a);
    assert t == t[..|t| - 1] + [a];
    FilterAppend(t[..|t| - 1], [a], a.priority);
    assert Filter([a], a.priority) == [a];
  }

  /**
   Within each priority class a callback only appends the new alert and
   possibly drops the class's front: the class after the callback is a
   suffix of the class of the list with the new alert pushed.
   */
  lemma StepClassIsQueue(alerts: seq<Alert>, a: Alert, p: Priority)
    ensures IsSuffix(Filter(Step(alerts, a), p), Filter(alerts + [a], p))
  {
    var u := alerts + [a];
    if |Tick(alerts, a)| < |u| {
      assert u == [u[0]] + u[1..];
      FilterCons(u[0], u[1..], p);
    }
  }

  /** Over a run, each priority class holds a suffix of that class's arrivals, in arrival order. */
  lemma {:induction false} RunClassIsQueue(alerts: seq<Alert>, arrivals: seq<Alert>, p: Priority)
    ensures IsSuffix(Filter(Run(alerts, arrivals), p), Filter(alerts + arrivals, p))
    decreases |arrivals|
  {
    if |arrivals| == 0 {
      assert alerts + arrivals == alerts;
    } else {
      RunClassIsQueue(Step(alerts, arrivals[0]), arrivals[1..], p);
      RunClassStep(alerts, arrivals, p);
    }
  }

  /** The inductive step: one callback, then the rest of the run. */
  lemma RunClassStep(alerts: seq<Alert>, arrivals: seq<Alert>, p: Priority)
    requires |arrivals| > 0
    requires IsSuffix(Filter(Run(Step(alerts, arrivals[0]), arrivals[1..]), p),
                      Filter(Step(alerts, arrivals[0]) + arrivals[1..], p))
    ensures IsSuffix(Filter(Run(alerts, arrivals), p), Filter(alerts + arrivals, p))
  {
    var a, rest := arrivals[0], arrivals[1..];
    StepThenRest(alerts, a, rest, p);
    assert Run(alerts, arrivals) == Run(Step(alerts, a), rest);
    PushFirst(alerts, arrivals);
  }

  /** Pushing the first arrival and then the rest is pushing all arrivals. */
  lemma PushFirst(alerts: seq<Alert>, arrivals: seq<Alert>)
    requires |arrivals| > 0
    ensures (alerts + [arrivals[0]]) + arrivals[1..] == alerts + arrivals
  {
  }

  lemma StepThenRest(alerts: seq<Alert>, a: Alert, rest: seq<Alert>, p: Priority)
    requires IsSuffix(Filter(Run(Step(alerts, a), rest), p), Filter(Step(alerts, a) + rest, p))
    ensures IsSuffix(Filter(Run(Step(alerts, a), rest), p), Filter((alerts + [a]) + rest, p))
  {
    var s := Step(alerts, a);
    FilterAppend(s, rest, p);
    StepClassIsQueue(alerts, a, p);
    FilterAppend(alerts + [a], rest, p);
    SuffixChain(Filter(Run(s, rest), p), Filter(s, p), Filter(alerts + [a], p), Filter(rest, p));
  }

  lemma SuffixChain(x: seq<Alert>, y: seq<Alert>, z: seq<Alert>, w: seq<Alert>)
    requires IsSuffix(x, y + w) && IsSuffix(y, z)
    ensures IsSuffix(x, z + w)
  {
    SuffixAppend(y, z, w);
    SuffixTransitive(x, y + w, z + w);
  }

  /**
   From start-up on, each priority class of the dashboard's list is the
   latest alerts of that class among the start-up alerts and the arrivals,
   in arrival order; with the head rule above, a full tick drops the
   earliest-arrived alert of the highest priority among the alerts held
   before the push, which need not be the oldest alert.
   */
  lemma DashboardClassIsQueue(initial: seq<Alert>, arrivals: seq<Alert>, p: Priority)
    ensures IsSuffix(Filter(Run(Init(initial), arrivals), p), Filter(initial + arrivals, p))
  {
    RunClassIsQueue(Init(initial), arrivals, p);
    FilterAppend(Init(initial), arrivals, p);
    FilterAppend(initial, arrivals, p);
  }

  /** Draws under which the generator gives a high alert at 06:00: score (0.7 + 0.95 + 1) / 3. */
  const HighDraws: Draws := Draws(0.0, 0.0, 0.0, 0.0, 0.0, 0.0, 0.9)

  /** Draws under which the generator gives a low alert at 05:00: score (0.4 + 0.5 + 0.6) / 3 = 0.5. */
  const LowDraws: Draws := Draws(0.0, 0.0, 0.8, 0.0, 0.0, 0.0, 0.0)

  /** An alert generated in the 06:00 hour, stamped `ts`. */
  function HighAt(ts: int): Alert
  {
    GenerateAlert("", Clock(ts, 6), HighDraws)
  }

  /** An alert generated in the 05:00 hour, stamped `ts`. */
  function LowAt(ts: int): Alert
  {
    GenerateAlert("", Clock(ts, 5), LowDraws)
  }

  lemma GeneratedClasses(ts: int)
    ensures HighAt(ts).priority == High && HighAt(ts).timestamp == ts
    ensures LowAt(ts).priority == Low && LowAt(ts).timestamp == ts
  {
  }

  predicate AllOf(s: seq<Alert>, p: Priority)
  {
    forall y :: y in s ==> y.priority == p
  }

  lemma {:induction false} FilterAll(s: seq<Alert>, p: Priority)
    requires AllOf(s, p)
    ensures Filter(s, p) == s
  {
    if |s| > 0 {
      assert s == [s[0]] + s[1..];
      FilterAll(s[1..], p);
    }
  }

  /** A list of one class is already sorted, so the render leaves it as it is. */
  lemma SortOneClass(s: seq<Alert>, p: Priority)
    requires AllOf(s, p)
    ensures SortByPriority(s) == s
  {
    assert SortedByRank(s) by {
      forall i, j | 0 <= i < j < |s|
        ensures Rank(s[i].priority) >= Rank(s[j].priority)
      {
        assert s[i] in s && s[j] in s;
      }
    }
    StableSortUnique(s, s);
  }

  lemma {:induction false} RunOneClass(alerts: seq<Alert>, arrivals: seq<Alert>, p: Priority)
    requires AllOf(alerts, p) && AllOf(arrivals, p)
    requires |alerts| + |arrivals| <= Capacity
    ensures Run(alerts, arrivals) == alerts + arrivals
    decreases |arrivals|
  {
    if |arrivals| > 0 {
      var a := arrivals[0];
      assert a in arrivals;
      assert AllOf(arrivals[1..], p) by {
        forall y | y in arrivals[1..]
          ensures y.priority == p
        {
          assert y in arrivals;
        }
      }
      OneClassStep(alerts, a, p);
      RunOneClass(alerts + [a], arrivals[1..], p);
      assert Run(alerts, arrivals) == Run(Step(alerts, a), arrivals[1..]);
      PushFirst(alerts, arrivals);
    }
  }

  /** Below capacity, a same-class arrival is simply appended. */
  lemma OneClassStep(alerts: seq<Alert>, a: Alert, p: Priority)
    requires AllOf(alerts, p) && a.priority == p && |alerts| < Capacity
    ensures AllOf(alerts + [a], p)
    ensures Step(alerts, a) == alerts + [a]
  {
    assert Tick(alerts, a) == alerts + [a];
    SortOneClass(alerts + [a], p);
  }

  lemma {:induction false} RunAppend(alerts: seq<Alert>, x: seq<Alert>, y: seq<Alert>)
    ensures Run(alerts, x + y) == Run(Run(alerts, x), y)
    decreases |x|
  {
    if |x| == 0 {
      assert x + y == y;
    } else {
      assert (x + y)[1..] == x[1..] + y;
      RunAppend(Step(alerts, x[0]), x[1..], y);
    }
  }

  /** A high alert arriving at a list of low alerts is moved to the front by the render. */
  lemma HighJoinsLows(lows: seq<Alert>, h: Alert)
    requires AllOf(lows, Low) && h.priority == High && |lows| < Capacity
    ensures Step(lows, h) == [h] + lows
  {
    var t := lows + [h];
    var r := [h] + lows;
    assert SortedByRank(r) by {
      forall i, j | 0 <= i < j < |r|
        ensures Rank(r[i].priority) >= Rank(r[j].priority)
      {
        assert r[j] == lows[j - 1] && lows[j - 1] in lows;
      }
    }
    FilterAll(lows, Low);
    FilterAbsent(lows, High);
    FilterAbsent(lows, Medium);
    forall p
      ensures Filter(r, p) == Filter(t, p)
    {
      FilterCons(h, lows, p);
      FilterAppend(lows, [h], p);
      assert Filter([h], p) == (if p == High then [h] else []) by {
        FilterCons(h, [], p);
        assert [h] + [] == [h];
      }
    }
    StableSortUnique(r, t);
  }

  /** `n` low alerts generated in the 05:00 hour, stamped `from` onwards. */
  function Lows(from: int, n: nat): seq<Alert>
  {
    seq(n, i => LowAt(from + i))
  }

  lemma LowsAreLow(from: int, n: nat)
    ensures AllOf(Lows(from, n), Low)
  {
    forall i | 0 <= i < n
      ensures Lows(from, n)[i].priority == Low
    {
      GeneratedClasses(from + i);
    }
  }

  lemma LowsSplit(from: int, n: nat, m: nat)
    ensures Lows(from, n) + Lows(from + n, m) == Lows(from, n + m)
  {
    var a, b := Lows(from, n) + Lows(from + n, m), Lows(from, n + m);
    forall i | 0 <= i < n + m
      ensures a[i] == b[i]
    {
      if i >= n {
        assert a[i] == Lows(from + n, m)[i - n];
        assert from + n + (i - n) == from + i;
      }
    }
  }

  /**
   The start-up list and the arrivals of the counterexample fill the list,
   the high alert first.
   */
  lemma CounterexampleList(t: int)
    ensures Run(Init(Lows(t, 10)), Lows(t + 10, 9) + [HighAt(t + 19)]) == [HighAt(t + 19)] + Lows(t, 19)
  {
    GeneratedClasses(t + 19);
    LowsAreLow(t, 10);
    LowsAreLow(t + 10, 9);
    LowsSplit(t, 10, 9);
    FillThenHigh(Lows(t, 10), Lows(t + 10, 9), HighAt(t + 19), Lows(t, 19));
  }

  /**
   Start-up with low alerts, low arrivals up to one below capacity, then a
   high arrival: the list is the high alert followed by all the low alerts.
   */
  lemma FillThenHigh(initial: seq<Alert>, lows: seq<Alert>, h: Alert, all: seq<Alert>)
    requires AllOf(initial, Low) && AllOf(lows, Low) && h.priority == High
    requires |initial| + |lows| < Capacity && all == initial + lows
    ensures Run(Init(initial), lows + [h]) == [h] + all
  {
    assert AllOf(initial + lows, Low);
    calc {
      Run(Init(initial), lows + [h]);
    == { SortOneClass(initial, Low); }
      Run(initial, lows + [h]);
    == { RunAppend(initial, lows, [h]); }
      Run(Run(initial, lows), [h]);
    == { RunOneClass(initial, lows, Low); }
      Run(initial + lows, [h]);
    == { RunSingle(initial + lows, h); }
      Step(initial + lows, h);
    == { HighJoinsLows(initial + lows, h); }
      [h] + (initial + lows);
    }
  }

  lemma RunSingle(alerts: seq<Alert>, a: Alert)
    ensures Run(alerts, [a]) == Step(alerts, a)
  {
    assert [a][1..] == [];
  }

  /**
   The next tick on that full list, bringing a second high alert, drops the
   first high alert and keeps the oldest low alert.
   */
  lemma CounterexampleTick(t: int)
    ensures HighAt(t + 19) !in Step([HighAt(t + 19)] + Lows(t, 19), HighAt(t + 20))
    ensures LowAt(t) in Step([HighAt(t + 19)] + Lows(t, 19), HighAt(t + 20))
  {
    GeneratedClasses(t + 19);
    GeneratedClasses(t + 20);
    LowsAreLow(t, 19);
    assert Lows(t, 19)[0] == LowAt(t + 0);
    FullTickOfLows(HighAt(t + 19), Lows(t, 19), HighAt(t + 20), LowAt(t));
  }

  /**
   A full list of one high alert followed by low alerts: any other arriving
   alert evicts the high alert, and the oldest low alert stays.
   */
  lemma FullTickOfLows(h: Alert, lows: seq<Alert>, a: Alert, oldest: Alert)
    requires AllOf(lows, Low) && h.priority == High && a != h
    requires |lows| == Capacity - 1 && lows[0] == oldest
    ensures h !in Step([h] + lows, a)
    ensures oldest in Step([h] + lows, a)
  {
    FullTickDropsFront(h, lows, a);
    var t := lows + [a];
    assert h !in multiset(t) by {
      assert h !in lows;
    }
    assert lows[0] in multiset(t) by {
      assert t[0] == lows[0];
    }
  }

  lemma FullTickDropsFront(h: Alert, rest: seq<Alert>, a: Alert)
    requires |rest| == Capacity - 1
    ensures Tick([h] + rest, a) == rest + [a]
  {
    assert ([h] + rest + [a])[1..] == rest + [a];
  }

  /**
   A counterexample to oldest-first eviction that a running clock can
   produce, for every start stamp `t`; stamps are abstract instants in
   arrival order (the ten start-up alerts come from one synchronous loop,
   so a real clock may give them equal stamps; distinct ones are used
   here). Ten
   low alerts generated in the 05:00 hour (stamps t to t + 9) start the
   dashboard; nine more low alerts from the 05:00 hour (stamps t + 10 to
   t + 18) arrive, then, once the clock has passed 06:00, a high alert
   (stamp t + 19). The list is then full with the high alert at its head.
   The next tick, bringing a second high alert from the 06:00 hour (stamp
   t + 20), drops the first high alert, the newest alert in the list, and
   keeps the low alert stamped t, the oldest.
   */
  lemma EvictionIsNotOldestFirst(t: int)
    ensures var s := Run(Init(Lows(t, 10)), Lows(t + 10, 9) + [HighAt(t + 19)]);
            && s == [HighAt(t + 19)] + Lows(t, 19)
            && LowAt(t).timestamp < HighAt(t + 19).timestamp
            && HighAt(t + 19) !in Step(s, HighAt(t + 20))
            && LowAt(t) in Step(s, HighAt(t + 20))
  {
    GeneratedClasses(t);
    GeneratedClasses(t + 19);
    CounterexampleList(t);
    CounterexampleTick(t);
  }

  /** Arrival order: timestamps never decrease along the list. */
  ghost predicate ArrivalOrdered(q: seq<Alert>)
  {
    forall i, j :: 0 <= i < j < |q| ==> q[i].timestamp <= q[j].timestamp
  }

  /**
   The corrected timer callback: the list stays in arrival order and the
   list view sorts a copy, so the tick always drops the oldest alert.
   */
  function FifoStep(queue: seq<Alert>, a: Alert): (r: seq<Alert>)
    ensures |queue| < Capacity ==> r == queue + [a]
    ensures |queue| >= Capacity ==> r == queue[1..] + [a]
  {
    Tick(queue, a)
  }

  /**
   The list view of the corrected dashboard: a sorted copy, with each
   priority class in arrival order.
   */
  function FifoView(queue: seq<Alert>): (v: seq<Alert>)
    ensures multiset(v) == multiset(queue) && SortedByRank(v)
    ensures StableWrt(v, queue)
  {
    SortByPriority(queue)
  }

  /**
   In the corrected model a full tick drops the front of the arrival-ordered
   list, whose stamp is the earliest, and keeps the list in arrival order.
   Alerts may share a stamp (the start-up alerts are stamped within one
   synchronous loop).
   */
  lemma FifoStepEvictsOldest(queue: seq<Alert>, a: Alert)
    requires ArrivalOrdered(queue) && |queue| == Capacity
    requires queue[|queue| - 1].timestamp <= a.timestamp
    ensures FifoStep(queue, a) == queue[1..] + [a]
    ensures ArrivalOrdered(FifoStep(queue, a))
    ensures forall y :: y in queue ==> queue[0].timestamp <= y.timestamp
  {
  }

  /**
   The corrected run: one corrected callback per arriving alert. From a
   list within capacity the length grows by one per tick up to twenty, and
   the last arrival ends the list.
   */
  function FifoRun(queue: seq<Alert>, arrivals: seq<Alert>): (r: seq<Alert>)
    ensures |queue| <= Capacity ==> |r| == Min(|queue| + |arrivals|, Capacity)
    decreases |arrivals|
  {
    if |arrivals| == 0 then queue
    else FifoRun(FifoStep(queue, arrivals[0]), arrivals[1..])
  }

  /**
   The corrected list is always the latest arrivals: after any run from a
   list within capacity it holds the last (up to) twenty alerts of the
   initial list followed by the arrivals, in arrival order.
   */
  lemma {:induction false} FifoRunWindow(queue: seq<Alert>, arrivals: seq<Alert>)
    requires |queue| <= Capacity
    ensures var all := queue + arrivals;
            FifoRun(queue, arrivals) == all[|all| - Min(|all|, Capacity)..]
    decreases |arrivals|
  {
    if |arrivals| > 0 {
      FifoRunWindow(FifoStep(queue, arrivals[0]), arrivals[1..]);
      FifoWindowStep(queue, arrivals);
    }
  }

  /** The inductive step: one corrected callback, then the rest of the run. */
  lemma FifoWindowStep(queue: seq<Alert>, arrivals: seq<Alert>)
    requires |queue| <= Capacity && |arrivals| > 0
    requires var all' := FifoStep(queue, arrivals[0]) + arrivals[1..];
             FifoRun(FifoStep(queue, arrivals[0]), arrivals[1..]) == all'[|all'| - Min(|all'|, Capacity)..]
    ensures var all := queue + arrivals;
            FifoRun(queue, arrivals) == all[|all| - Min(|all|, Capacity)..]
  {
    FifoRunUnfold(queue, arrivals);
    PushFirst(queue, arrivals);
    WindowStep(queue, arrivals[0], arrivals[1..], queue + arrivals);
  }

  lemma FifoRunUnfold(queue: seq<Alert>, arrivals: seq<Alert>)
    requires |arrivals| > 0
    ensures FifoRun(queue, arrivals) == FifoRun(FifoStep(queue, arrivals[0]), arrivals[1..])
  {
  }

  /** After one corrected callback, the window of the remaining run is the window of the whole run. */
  lemma WindowStep(queue: seq<Alert>, a: Alert, rest: seq<Alert>, all: seq<Alert>)
    requires |queue| <= Capacity && all == (queue + [a]) + rest
    ensures var all' := FifoStep(queue, a) + rest;
            all'[|all'| - Min(|all'|, Capacity)..] == all[|all| - Min(|all|, Capacity)..]
  {
    var q' := FifoStep(queue, a);
    var k := |queue| + 1 - |q'|;
    assert q' + rest == all[k..] by {
      assert q' == (queue + [a])[k..];
    }
    var all' := q' + rest;
    var x := |all'| - Min(|all'|, Capacity);
    assert k + x == |all| - Min(|all|, Capacity);
    assert all'[x..] == all[k + x..];
  }
}
