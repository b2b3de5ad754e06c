/** Clamping the five fields the rule-based scorer reads into their closed ranges. */
module Sanitizer {
  import opened StudyRecord

  /** `min(max(x, lo), hi)` on reals. */
  function ClampReal(x: real, lo: real, hi: real): (r: real)
    ensures lo <= hi ==> lo <= r <= hi
    ensures lo <= x <= hi ==> r == x
    ensures x < lo <= hi ==> r == lo
    ensures lo <= hi < x ==> r == hi
  {
    var atLeast := if x > lo then x else lo;
    if atLeast < hi then atLeast else hi
  }

  /** `min(max(x, lo), hi)` on integers. */
  function ClampInt(x: int, lo: int, hi: int): (r: int)
    ensures lo <= hi ==> lo <= r <= hi
    ensures lo <= x <= hi ==> r == x
    ensures x < lo <= hi ==> r == lo
    ensures lo <= hi < x ==> r == hi
  {
    var atLeast := if x > lo then x else lo;
    if atLeast < hi then atLeast else hi
  }

  lemma ClampRealMonotone(x: real, y: real, lo: real, hi: real)
    requires x <= y
    ensures ClampReal(x, lo, hi) <= ClampReal(y, lo, hi)
  {
  }

  lemma ClampIntMonotone(x: int, y: int, lo: int, hi: int)
    requires x <= y
    ensures ClampInt(x, lo, hi) <= ClampInt(y, lo, hi)
  {
  }

  /** The five inputs of the burnout scorer: the dictionary the sanitiser returns. */
  datatype Vitals = Vitals(
    studyHours: real,
    sleepHours: real,
    screenTime: real,
    breakCount: int,
    moodScore: int)

  /** The scorer's fields looked up in the full input record; the other keys are not read. */
  function VitalsOf(raw: Raw): (v: Vitals)
    ensures v.studyHours == raw.studyHours && v.sleepHours == raw.sleepHours
    ensures v.screenTime == raw.screenTime
    ensures v.breakCount == raw.breakCount && v.moodScore == raw.moodScore
  {
    Vitals(raw.studyHours, raw.sleepHours, raw.screenTime, raw.breakCount, raw.moodScore)
  }

  /** The closed ranges the sanitiser enforces. */
  predicate InRange(v: Vitals)
  {
    && 0.5 <= v.studyHours <= 10.0
    && 1.0 <= v.sleepHours <= 10.0
    && 0.0 <= v.screenTime <= 12.0
    && 0 <= v.breakCount <= 10
    && 1 <= v.moodScore <= 5
  }

  function Sanitize(v: Vitals): (r: Vitals)
    ensures InRange(r)
    ensures InRange(v) ==> r == v
  {
    Vitals(
      ClampReal(v.studyHours, 0.5, 10.0),
      ClampReal(v.sleepHours, 1.0, 10.0),
      ClampReal(v.screenTime, 0.0, 12.0),
      ClampInt(v.breakCount, 0, 10),
      ClampInt(v.moodScore, 1, 5))
  }

  /** Each field is left alone exactly when it is already in its range. */
  lemma SanitizeKeepsInRangeFields(v: Vitals)
    ensures Sanitize(v).studyHours == v.studyHours <==> 0.5 <= v.studyHours <= 10.0
    ensures Sanitize(v).sleepHours == v.sleepHours <==> 1.0 <= v.sleepHours <= 10.0
    ensures Sanitize(v).screenTime == v.screenTime <==> 0.0 <= v.screenTime <= 12.0
    ensures Sanitize(v).breakCount == v.breakCount <==> 0 <= v.breakCount <= 10
    ensures Sanitize(v).moodScore == v.moodScore <==> 1 <= v.moodScore <= 5
  {
  }

  lemma SanitizeIdempotent(v: Vitals)
    ensures Sanitize(Sanitize(v)) == Sanitize(v)
  {
  }

  /** Sanitising changes nothing exactly when the record is already in range. */
  lemma SanitizeFixedPoints(v: Vitals)
    ensures Sanitize(v) == v <==> InRange(v)
  {
  }
}
