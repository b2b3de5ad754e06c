/** The secondary indices computed from the raw record before the models are consulted. */
module Features {
  import opened StudyRecord

  datatype Derived = Derived(
    focusScore: real,
    fatigueIndex: real,
    consistencyScore: real,
    revisionIntensity: int,
    cognitiveLoad: real,
    productivityIndex: real)

  /** A division by zero, which raises an exception in the analyzer. */
  datatype ArithError = ZeroDivision

  datatype Result<T> = Ok(value: T) | Err(error: ArithError)

  /** The six indices: focus is study time per break slot, fatigue study per hour of sleep,
      consistency study time capped at 6, and productivity a weighted combination. */
  function Derive(raw: Raw): (r: Result<Derived>)
    ensures r.Ok? <==> raw.breakCount != -1 && raw.sleepHours != 0.0
    ensures r.Ok? ==>
      && r.value.focusScore * (raw.breakCount + 1) as real == raw.studyHours
      && r.value.fatigueIndex * raw.sleepHours == raw.studyHours
      && r.value.consistencyScore <= 6.0
      && r.value.consistencyScore <= raw.studyHours
      && (r.value.consistencyScore == raw.studyHours || r.value.consistencyScore == 6.0)
      && r.value.revisionIntensity == raw.revisionDone
      && r.value.cognitiveLoad == raw.difficultyLevel as real * raw.studyHours
      && r.value.productivityIndex
         == 0.35 * r.value.focusScore + 0.30 * r.value.consistencyScore
            + 0.20 * r.value.revisionIntensity as real - 0.15 * r.value.fatigueIndex
  {
    if raw.breakCount + 1 == 0 then Err(ZeroDivision)
    else if raw.sleepHours == 0.0 then Err(ZeroDivision)
    else
      var focus := raw.studyHours / (raw.breakCount + 1) as real;
      var fatigue := raw.studyHours / raw.sleepHours;
      var consistency := if raw.studyHours < 6.0 then raw.studyHours else 6.0;
      Ok(Derived(
        focus, fatigue, consistency, raw.revisionDone,
        raw.difficultyLevel as real * raw.studyHours,
        0.35 * focus + 0.30 * consistency + 0.20 * raw.revisionDone as real - 0.15 * fatigue))
  }

  /** Every record the widgets can produce has well-defined features: focus lies between 0 and
      the study time, and so does fatigue, since sleep is at least one hour. */
  lemma FeaturesDefinedOnWidgetDomain(raw: Raw)
    requires InWidgetDomain(raw)
    ensures Derive(raw).Ok?
    ensures 0.0 <= Derive(raw).value.focusScore <= raw.studyHours
    ensures 0.0 <= Derive(raw).value.fatigueIndex <= raw.studyHours
    ensures 0.0 <= Derive(raw).value.consistencyScore <= 6.0
  {
    var d := Derive(raw).value;
    QuotientBounds(d.focusScore, (raw.breakCount + 1) as real, raw.studyHours);
    QuotientBounds(d.fatigueIndex, raw.sleepHours, raw.studyHours);
  }

  /** On the widget domain the cognitive load lies between the study time and five times it. */
  lemma CognitiveLoadOnWidgetDomain(raw: Raw)
    requires InWidgetDomain(raw)
    ensures raw.studyHours <= Derive(raw).value.cognitiveLoad <= 5.0 * raw.studyHours
  {
    LoadBounds(raw.difficultyLevel, raw.studyHours, Derive(raw).value.cognitiveLoad);
  }

  /** A quotient by a divisor of at least 1 lies between 0 and a non-negative dividend. */
  lemma QuotientBounds(q: real, divisor: real, dividend: real)
    requires divisor >= 1.0 && dividend >= 0.0 && q * divisor == dividend
    ensures 0.0 <= q <= dividend
  {
    assert q * divisor - q == q * (divisor - 1.0);
  }

  /** Difficulty 1 to 5 times a non-negative study time. */
  lemma LoadBounds(difficulty: int, hours: real, load: real)
    requires 1 <= difficulty <= 5 && hours >= 0.0 && load == difficulty as real * hours
    ensures hours <= load <= 5.0 * hours
  {
    assert load - hours == (difficulty - 1) as real * hours;
    assert 5.0 * hours - load == (5 - difficulty) as real * hours;
  }

  /** Revising adds exactly 0.2 to the productivity index and leaves focus, fatigue,
      consistency and cognitive load unchanged. */
  lemma RevisionAddsFixedBonus(raw: Raw)
    requires Derive(raw).Ok?
    ensures Derive(raw.(revisionDone := 1)).value.productivityIndex
         == Derive(raw.(revisionDone := 0)).value.productivityIndex + 0.2
    ensures Derive(raw.(revisionDone := 1)).value.focusScore
         == Derive(raw.(revisionDone := 0)).value.focusScore
    ensures Derive(raw.(revisionDone := 1)).value.fatigueIndex
         == Derive(raw.(revisionDone := 0)).value.fatigueIndex
    ensures Derive(raw.(revisionDone := 1)).value.consistencyScore
         == Derive(raw.(revisionDone := 0)).value.consistencyScore
    ensures Derive(raw.(revisionDone := 1)).value.cognitiveLoad
         == Derive(raw.(revisionDone := 0)).value.cognitiveLoad
  {
  }

  /** A sample day: 4 hours of study, 7 of sleep, 3 breaks, difficulty 3. */
  lemma WorkedExample()
    ensures var d := Derive(Raw(4.0, 7.0, 3, 10, 4.0, 3, 1, 3)).value;
      d.focusScore == 1.0 && d.fatigueIndex == 4.0 / 7.0 && d.cognitiveLoad == 12.0
      && d.consistencyScore == 4.0
  {
  }
}
