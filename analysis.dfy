/** One press of the analyze button: clamp the classifier's probability, score the sanitised
    inputs, pick the level, and generate advice from the unsanitised inputs. The two trained
    models are outside the model; the classifier's probability arrives as a parameter. */
module Analysis {
  import opened StudyRecord
  import opened Sanitizer
  import opened Scorer
  import opened Advice

  /** Keeps the displayed probability away from certainty. */
  function ClampProbability(p: real): (r: real)
    ensures 0.05 <= r <= 0.95
    ensures 0.05 <= p <= 0.95 ==> r == p
    ensures p < 0.05 ==> r == 0.05
    ensures p > 0.95 ==> r == 0.95
  {
    ClampReal(p, 0.05, 0.95)
  }

  lemma ClampProbabilityMonotone(p: real, q: real)
    requires p <= q
    ensures ClampProbability(p) <= ClampProbability(q)
  {
    ClampRealMonotone(p, q, 0.05, 0.95);
  }

  lemma ClampProbabilityIdempotent(p: real)
    ensures ClampProbability(ClampProbability(p)) == ClampProbability(p)
  {
  }

  /** The score the analyzer shows: the rounded penalty sum of the sanitised inputs. */
  function ScoreOf(raw: Raw): (r: real)
    ensures 0.0 <= r <= 13.6
  {
    var v := Sanitize(VitalsOf(raw));
    RawBurnoutBoundedInRange(v);
    RoundCentsMonotone(RawBurnout(v), 13.6);
    assert RoundCents(13.6) == 13.6;
    BurnoutScore(v)
  }

  /** The level of the record as entered. Because the sum is rounded before the ladder and a
      tie rounds to the even hundredth, the thresholds on the unrounded penalty sum of the
      sanitised record are 2.495, 4.995 and 7.495. */
  function LevelOf(raw: Raw): (l: Level)
    ensures var sum := RawBurnout(Sanitize(VitalsOf(raw)));
      Rank(l) == Count(sum >= 2.495) + Count(sum >= 4.995) + Count(sum >= 7.495)
  {
    var sum := RawBurnout(Sanitize(VitalsOf(raw)));
    RoundCentsReaches(sum, 250);
    RoundCentsReaches(sum, 500);
    RoundCentsReaches(sum, 750);
    Classify(ScoreOf(raw))
  }

  datatype Report = Report(probability: real, score: real, level: Level, advice: seq<string>)

  /** The three displayed metrics (the performance prediction aside) and the tips. The score
      reads the sanitised record; the advice reads the record as entered. */
  function Analyze(raw: Raw, modelProbability: real): (rep: Report)
    ensures rep.probability == ClampProbability(modelProbability)
    ensures rep.score == BurnoutScore(Sanitize(VitalsOf(raw)))
    ensures rep.level == Classify(rep.score)
    ensures rep.advice == AdviceFor(Label(rep.level), raw)
    ensures 0.05 <= rep.probability <= 0.95
    ensures 0.0 <= rep.score <= 13.6
    ensures rep.level == Low <==> rep.score < 2.5
    ensures rep.level == VeryHigh <==> rep.score >= 7.5
    ensures 3 <= |rep.advice| <= 6 && rep.advice[0] == Header(Label(rep.level))
  {
    var level := LevelOf(raw);
    ClassifyBands(ScoreOf(raw));
    AdviceHeaderAndLength(Label(level), raw);
    Report(ClampProbability(modelProbability), ScoreOf(raw), level, AdviceFor(Label(level), raw))
  }

  /** Sanitising keeps the order "no more strained than": clamping is monotone. */
  lemma SanitizeKeepsStrainOrder(v1: Vitals, v2: Vitals)
    requires NoMoreStrained(v1, v2)
    ensures NoMoreStrained(Sanitize(v1), Sanitize(v2))
  {
    ClampRealMonotone(v1.studyHours, v2.studyHours, 0.5, 10.0);
    ClampRealMonotone(v2.sleepHours, v1.sleepHours, 1.0, 10.0);
    ClampRealMonotone(v1.screenTime, v2.screenTime, 0.0, 12.0);
    ClampIntMonotone(v1.breakCount, v2.breakCount, 0, 10);
    ClampIntMonotone(v2.moodScore, v1.moodScore, 1, 5);
  }

  /** A more straining day never gets a lower level: less sleep or a worse mood, or more
      study, screen time or breaks, can only raise the level. */
  lemma LevelMonotone(r1: Raw, r2: Raw)
    requires NoMoreStrained(VitalsOf(r1), VitalsOf(r2))
    ensures ScoreOf(r1) <= ScoreOf(r2)
    ensures Rank(LevelOf(r1)) <= Rank(LevelOf(r2))
  {
    SanitizeKeepsStrainOrder(VitalsOf(r1), VitalsOf(r2));
    BurnoutScoreMonotone(Sanitize(VitalsOf(r1)), Sanitize(VitalsOf(r2)));
    ClassifyMonotone(ScoreOf(r1), ScoreOf(r2));
  }

  /** A day on which no penalty applies scores 0, is rated Low and gets the low-risk advice. */
  lemma RelaxedDayIsLow(raw: Raw, p: real)
    requires Relaxed(VitalsOf(raw))
    ensures ScoreOf(raw) == 0.0 && LevelOf(raw) == Low
    ensures var a := Analyze(raw, p).advice; a[1] == LowRisk && SevereSleep !in a
  {
    assert Relaxed(Sanitize(VitalsOf(raw)));
    LowAdvice(raw);
  }

  /** The advice reads the unsanitised record, but the result is the same as if it read the
      sanitised one: every advice threshold on sleep (5, 6, 7), study (6, 8) and screen time (6)
      lies strictly inside the corresponding clamp range. */
  lemma AdviceUnaffectedBySanitising(level: string, raw: Raw)
    ensures var s := Sanitize(VitalsOf(raw));
      AdviceFor(level, raw)
      == AdviceFor(level, raw.(studyHours := s.studyHours, sleepHours := s.sleepHours,
                               screenTime := s.screenTime))
  {
  }

  /** A rating of Low never comes with the severe sleep warning; a rating of High or Very High
      comes with it exactly when the entered sleep is under 5 hours. */
  lemma SevereSleepWarning(raw: Raw, p: real)
    ensures LevelOf(raw) == Low ==> SevereSleep !in Analyze(raw, p).advice
    ensures Rank(LevelOf(raw)) >= 2 ==>
      (SevereSleep in Analyze(raw, p).advice <==> raw.sleepHours < 5.0)
  {
    var level := LevelOf(raw);
    if level == Low {
      LowAdvice(raw);
    } else if Rank(level) >= 2 {
      HighAdvice(Label(level), raw);
    }
  }
}
