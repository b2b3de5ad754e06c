/** The rule-based burnout score: five clipped penalties, weighted, summed and rounded to cents,
    then mapped to a level by a ladder of thresholds. */
module Scorer {
  import opened StudyRecord
  import opened Sanitizer

  /** `max(0, x)`. */
  function Clip(x: real): (r: real)
    ensures r >= 0.0 && r >= x
    ensures r == x || r == 0.0
  {
    if x > 0.0 then x else 0.0
  }

  lemma ClipMonotone(x: real, y: real)
    requires x <= y
    ensures Clip(x) <= Clip(y)
  {
  }

  /** Hours of sleep short of 7. */
  function SleepPenalty(v: Vitals): (r: real)
    ensures r >= 0.0 && (r == 0.0 <==> v.sleepHours >= 7.0)
    ensures r > 0.0 ==> r + v.sleepHours == 7.0
  {
    Clip(7.0 - v.sleepHours)
  }

  /** Hours of study beyond 3. */
  function StudyPenalty(v: Vitals): (r: real)
    ensures r >= 0.0 && (r == 0.0 <==> v.studyHours <= 3.0)
    ensures r > 0.0 ==> r + 3.0 == v.studyHours
  {
    Clip(v.studyHours - 3.0)
  }

  /** Hours of screen time beyond 3. */
  function ScreenPenalty(v: Vitals): (r: real)
    ensures r >= 0.0 && (r == 0.0 <==> v.screenTime <= 3.0)
    ensures r > 0.0 ==> r + 3.0 == v.screenTime
  {
    Clip(v.screenTime - 3.0)
  }

  /** Breaks beyond 2. */
  function BreakPenalty(v: Vitals): (r: real)
    ensures r >= 0.0 && (r == 0.0 <==> v.breakCount <= 2)
    ensures r > 0.0 ==> r + 2.0 == v.breakCount as real
  {
    Clip((v.breakCount - 2) as real)
  }

  /** Mood points below 4. */
  function MoodPenalty(v: Vitals): (r: real)
    ensures r >= 0.0 && (r == 0.0 <==> v.moodScore >= 4)
    ensures r > 0.0 ==> r + v.moodScore as real == 4.0
  {
    Clip((4 - v.moodScore) as real)
  }

  /** No penalty applies: enough sleep, light study, little screen time, few breaks, good mood. */
  predicate Relaxed(v: Vitals)
  {
    v.sleepHours >= 7.0 && v.studyHours <= 3.0 && v.screenTime <= 3.0
    && v.breakCount <= 2 && v.moodScore >= 4
  }

  /** The weighted penalty sum before rounding. It is never negative, and it is zero
      exactly when no penalty applies. */
  function RawBurnout(v: Vitals): (r: real)
    ensures r >= 0.0
    ensures r == 0.0 <==> Relaxed(v)
  {
    0.7 * SleepPenalty(v) + 0.4 * StudyPenalty(v) + 0.3 * ScreenPenalty(v)
    + 0.3 * BreakPenalty(v) + 0.5 * MoodPenalty(v)
  }

  /** v2 describes a day at least as straining as v1 on every input: no more sleep,
      no better mood, no less study, screen time or breaks. */
  predicate NoMoreStrained(v1: Vitals, v2: Vitals)
  {
    && v2.sleepHours <= v1.sleepHours
    && v2.moodScore <= v1.moodScore
    && v1.studyHours <= v2.studyHours
    && v1.screenTime <= v2.screenTime
    && v1.breakCount <= v2.breakCount
  }

  /** The score falls with sleep and mood and rises with study, screen time and breaks. */
  lemma RawBurnoutMonotone(v1: Vitals, v2: Vitals)
    requires NoMoreStrained(v1, v2)
    ensures RawBurnout(v1) <= RawBurnout(v2)
  {
    ClipMonotone(7.0 - v1.sleepHours, 7.0 - v2.sleepHours);
    ClipMonotone(v1.studyHours - 3.0, v2.studyHours - 3.0);
    ClipMonotone(v1.screenTime - 3.0, v2.screenTime - 3.0);
    ClipMonotone((v1.breakCount - 2) as real, (v2.breakCount - 2) as real);
    ClipMonotone((4 - v1.moodScore) as real, (4 - v2.moodScore) as real);
  }

  /** Four hours of sleep on an otherwise relaxed day contributes 0.7 * 3 = 2.1. */
  lemma ShortSleepExample(v: Vitals)
    requires v.sleepHours == 4.0
    requires v.studyHours <= 3.0 && v.screenTime <= 3.0 && v.breakCount <= 2 && v.moodScore >= 4
    ensures RawBurnout(v) == 2.1
  {
  }

  /** On sanitised inputs every penalty is bounded, so the score never exceeds
      0.7*6 + 0.4*7 + 0.3*9 + 0.3*8 + 0.5*3 = 13.6. */
  lemma RawBurnoutBoundedInRange(v: Vitals)
    requires InRange(v)
    ensures RawBurnout(v) <= 13.6
  {
    var worst := Vitals(10.0, 1.0, 12.0, 10, 1);
    assert NoMoreStrained(v, worst);
    RawBurnoutMonotone(v, worst);
  }

  // Rounding to two decimals.

  /** The integer number of hundredths nearest to x, ties going to the even neighbour. */
  function NearestHundredths(x: real): (n: int)
    ensures -0.5 <= n as real - 100.0 * x <= 0.5
    ensures n as real - 100.0 * x == 0.5 || n as real - 100.0 * x == -0.5 ==> n % 2 == 0
  {
    var f := (100.0 * x).Floor;
    var frac := 100.0 * x - f as real;
    if frac < 0.5 then f
    else if frac > 0.5 then f + 1
    else if f % 2 == 0 then f else f + 1
  }

  /** `round(x, 2)` on exact decimals. */
  function RoundCents(x: real): (r: real)
    ensures -0.005 <= r - x <= 0.005
    ensures (r * 100.0).Floor as real == r * 100.0
  {
    NearestHundredths(x) as real / 100.0
  }

  lemma NearestHundredthsMonotone(x: real, y: real)
    requires x <= y
    ensures NearestHundredths(x) <= NearestHundredths(y)
  {
    var fx, fy := (100.0 * x).Floor, (100.0 * y).Floor;
    assert fx <= fy;
    if fx < fy {
      assert NearestHundredths(x) <= fx + 1 <= fy <= NearestHundredths(y);
    }
  }

  lemma RoundCentsMonotone(x: real, y: real)
    requires x <= y
    ensures RoundCents(x) <= RoundCents(y)
  {
    NearestHundredthsMonotone(x, y);
  }

  /** Against an even number of hundredths k, a tie rounds up: the rounded value reaches k
      hundredths exactly when x is at least half a hundredth below it. */
  lemma RoundCentsReaches(x: real, k: int)
    requires k % 2 == 0
    ensures RoundCents(x) >= k as real / 100.0 <==> 100.0 * x >= k as real - 0.5
  {
    var n := NearestHundredths(x);
    if 100.0 * x == k as real - 0.5 {
      assert n == k - 1 || n == k;
    }
    assert RoundCents(x) >= k as real / 100.0 <==> n >= k;
  }

  /** The score the analyzer shows and classifies: the penalty sum rounded to cents. */
  function BurnoutScore(v: Vitals): (r: real)
    ensures r >= 0.0
    ensures Relaxed(v) ==> r == 0.0
    ensures -0.005 <= r - RawBurnout(v) <= 0.005
  {
    RoundCents(RawBurnout(v))
  }

  lemma BurnoutScoreMonotone(v1: Vitals, v2: Vitals)
    requires NoMoreStrained(v1, v2)
    ensures BurnoutScore(v1) <= BurnoutScore(v2)
  {
    RawBurnoutMonotone(v1, v2);
    RoundCentsMonotone(RawBurnout(v1), RawBurnout(v2));
  }

  // The level ladder.

  datatype Level = Low | Moderate | High | VeryHigh

  /** Position in the order Low < Moderate < High < Very High. */
  function Rank(l: Level): nat
  {
    match l
    case Low => 0
    case Moderate => 1
    case High => 2
    case VeryHigh => 3
  }

  /** The label the analyzer shows and hands to the advice generator. */
  function Label(l: Level): (s: string)
    ensures s == "Low" <==> l == Low
    ensures s == "Moderate" <==> l == Moderate
    ensures s == "High" <==> l == High
    ensures s == "Very High" <==> l == VeryHigh
  {
    match l
    case Low => "Low"
    case Moderate => "Moderate"
    case High => "High"
    case VeryHigh => "Very High"
  }

  /** The level's rank is the number of thresholds 2.5, 5 and 7.5 the score reaches. */
  function Classify(score: real): (l: Level)
    ensures Rank(l) == Count(score >= 2.5) + Count(score >= 5.0) + Count(score >= 7.5)
  {
    if score >= 7.5 then VeryHigh
    else if score >= 5.0 then High
    else if score >= 2.5 then Moderate
    else Low
  }

  /** Each level owns one half-open band of scores, and the four bands cover the line. */
  lemma ClassifyBands(score: real)
    ensures Classify(score) == Low <==> score < 2.5
    ensures Classify(score) == Moderate <==> 2.5 <= score < 5.0
    ensures Classify(score) == High <==> 5.0 <= score < 7.5
    ensures Classify(score) == VeryHigh <==> 7.5 <= score
  {
  }

  lemma ClassifyMonotone(s1: real, s2: real)
    requires s1 <= s2
    ensures Rank(Classify(s1)) <= Rank(Classify(s2))
  {
  }

  /** Distinct levels get distinct labels, so the advice header tells every level apart. */
  lemma LabelInjective(l1: Level, l2: Level)
    requires Label(l1) == Label(l2)
    ensures l1 == l2
  {
    assert |Label(l1)| == |Label(l2)|;
  }
}
