/**
 The priority score of an alert and its classification.

 The score is the unweighted mean of three terms: a time-of-day term
 (one minus the false-positive rate of the hour's period), a pattern term
 (a random draw in [0.5, 1), supplied here as a parameter) and a
 historical term (one minus the patient's historical false-positive
 rate). Scores are exact reals; the dashboard computes them in binary
 floating point.
 */
module Scoring {
  import opened TimePatterns

  datatype Priority = High | Medium | Low

  /** The rank the list ordering sorts by: high 3, medium 2, low 1. */
  function Rank(p: Priority): (r: int)
    ensures 1 <= r <= 3
  {
    match p
    case High => 3
    case Medium => 2
    case Low => 1
  }

  /** Distinct priorities have distinct ranks, so equal rank means equal priority. */
  lemma RankInjective(p: Priority, q: Priority)
    ensures Rank(p) == Rank(q) <==> p == q
  {
  }

  /** The time-of-day term: one minus the false-positive rate of the hour's period. */
  function TimeBasedScore(hour: int): (s: real)
    ensures s in {0.7, 0.6, 0.5, 0.4}
    ensures s == 0.7 <==> 6 <= hour < 12
    ensures s == 0.6 <==> 12 <= hour < 18
    ensures s == 0.5 <==> 18 <= hour < 22
    ensures s == 0.4 <==> hour < 6 || 22 <= hour
  {
    1.0 - FalsePositiveRateAt(hour)
  }

  /** The pattern term, scaled from a uniform draw `u` in [0, 1). */
  function PatternBasedScore(u: real): (s: real)
    requires 0.0 <= u < 1.0
    ensures 0.5 <= s < 1.0
  {
    u * 0.5 + 0.5
  }

  /** The historical term: the patient's historical true-positive rate. */
  function HistoricalScore(historicalFalsePositiveRate: real): (s: real)
    ensures s + historicalFalsePositiveRate == 1.0
    ensures 0.0 <= historicalFalsePositiveRate < 0.5 ==> 0.5 < s <= 1.0
  {
    1.0 - historicalFalsePositiveRate
  }

  /** The mean of the three terms. */
  function PriorityScore(hour: int, historicalFalsePositiveRate: real, patternScore: real): (s: real)
    ensures 3.0 * s == TimeBasedScore(hour) + patternScore + HistoricalScore(historicalFalsePositiveRate)
    ensures 0.0 <= historicalFalsePositiveRate < 0.5 && 0.5 <= patternScore < 1.0 ==>
              7.0 / 15.0 < s < 0.9
  {
    (TimeBasedScore(hour) + patternScore + HistoricalScore(historicalFalsePositiveRate)) / 3.0
  }

  /** The threshold chain: strictly above 0.8 is high, strictly above 0.5 is medium, else low. */
  function Classify(score: real): (p: Priority)
    ensures p == High <==> score > 0.8
    ensures p == Medium <==> 0.5 < score <= 0.8
    ensures p == Low <==> score <= 0.5
  {
    if score > 0.8 then High
    else if score > 0.5 then Medium
    else Low
  }

  /** A larger score never yields a lower rank. */
  lemma ClassifyMonotone(a: real, b: real)
    requires a <= b
    ensures Rank(Classify(a)) <= Rank(Classify(b))
  {
  }

  /** The boundaries themselves fall into the lower class. */
  lemma ClassifyBoundaries()
    ensures Classify(0.81) == High && Classify(0.8) == Medium
    ensures Classify(0.51) == Medium && Classify(0.5) == Low
  {
  }

  /**
   With inputs in their generated ranges, a low priority can only arise at
   night and a high priority never does: the time term alone decides which
   classes an hour can produce.
   */
  lemma ClassesByPeriod(hour: int, historicalFalsePositiveRate: real, patternScore: real)
    requires 0.0 <= historicalFalsePositiveRate < 0.5 && 0.5 <= patternScore < 1.0
    ensures Classify(PriorityScore(hour, historicalFalsePositiveRate, patternScore)) == Low ==>
              CurrentTimePattern(hour) == Night
    ensures CurrentTimePattern(hour) == Night ==>
              Classify(PriorityScore(hour, historicalFalsePositiveRate, patternScore)) != High
  {
  }
}
