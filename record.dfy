/** The daily study record that the analyzer form collects, and the ranges its widgets allow. */
module StudyRecord {

  /** One day's self-reported inputs, as they stand in the input dictionary before sanitising.
      Hours are real; counts, minutes and scores are integers, as the widgets return them. */
  datatype Raw = Raw(
    studyHours: real,
    sleepHours: real,
    breakCount: int,
    avgBreakDuration: int,
    screenTime: real,
    difficultyLevel: int,
    revisionDone: int,
    moodScore: int)

  /** An hour widget pair: whole hours plus a minutes field, divided by 60. */
  function HoursFrom(h: int, m: int): (t: real)
    requires 0 <= m <= 50
    ensures h as real <= t <= h as real + 5.0 / 6.0
    ensures t * 60.0 == (60 * h + m) as real
  {
    h as real + m as real / 60.0
  }

  /** The most an hour widget pair can give: 10 hours and 50 minutes. */
  const MaxWidgetHours: real := 65.0 / 6.0

  /** Every value the form's widgets can produce. The hour fields can exceed 10,
      because the hour box stops at 10 and the minutes box at 50. */
  predicate InWidgetDomain(raw: Raw)
  {
    && 0.0 <= raw.studyHours <= MaxWidgetHours
    && 1.0 <= raw.sleepHours <= MaxWidgetHours
    && 0 <= raw.breakCount <= 10
    && 5 <= raw.avgBreakDuration <= 40
    && 0.0 <= raw.screenTime <= 12.0
    && 1 <= raw.difficultyLevel <= 5
    && (raw.revisionDone == 0 || raw.revisionDone == 1)
    && 1 <= raw.moodScore <= 5
  }

  /** Assembles the record from the widget values: study and sleep from their hour and
      minute boxes, the rest directly. */
  function FromWidgets(
    studyH: int, studyM: int, sleepH: int, sleepM: int,
    breakCount: int, avgBreakDuration: int, screenTime: real,
    difficultyLevel: int, revisionDone: bool, moodScore: int): (raw: Raw)
    requires 0 <= studyH <= 10 && 0 <= studyM <= 50
    requires 1 <= sleepH <= 10 && 0 <= sleepM <= 50
    requires 0 <= breakCount <= 10 && 5 <= avgBreakDuration <= 40
    requires 0.0 <= screenTime <= 12.0
    requires 1 <= difficultyLevel <= 5 && 1 <= moodScore <= 5
    ensures InWidgetDomain(raw)
    ensures raw.studyHours * 60.0 == (60 * studyH + studyM) as real
    ensures raw.sleepHours * 60.0 == (60 * sleepH + sleepM) as real
    ensures raw.revisionDone == 1 <==> revisionDone
    ensures raw.breakCount == breakCount && raw.avgBreakDuration == avgBreakDuration
    ensures raw.screenTime == screenTime && raw.difficultyLevel == difficultyLevel
    ensures raw.moodScore == moodScore
  {
    Raw(HoursFrom(studyH, studyM), HoursFrom(sleepH, sleepM), breakCount, avgBreakDuration,
        screenTime, difficultyLevel, if revisionDone then 1 else 0, moodScore)
  }

  /** 1 when the condition holds, 0 otherwise: counts thresholds reached and tips present. */
  function Count(b: bool): nat { if b then 1 else 0 }
}
