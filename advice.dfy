/** The ordered list of tips shown under the results. The generator is driven by the level's
    label: any label other than "Low" and "Moderate" gets the high-risk tips. */
module Advice {
  import opened StudyRecord

  const HeaderPrefix := "🔥 Burnout Level: "

  /** The first entry names the level; the label can be read back after the fixed prefix. */
  function Header(level: string): (h: string)
    ensures |h| == |HeaderPrefix| + |level|
    ensures h[..|HeaderPrefix|] == HeaderPrefix && h[|HeaderPrefix|..] == level
  {
    HeaderPrefix + level
  }

  const LowRisk := "✅ Your burnout risk is low today."
  const LowSleep := "🛌 Getting a bit more sleep could further improve focus."
  const LowScreen := "📵 Slightly reducing screen time may help maintain energy."
  const LowKeep := "👍 Keep maintaining a healthy balance."

  const ModerateStrain := "🟡 You may be starting to feel some mental or physical strain."
  const ModerateSleep := "😴 Your sleep is on the lower side. Prioritizing rest can help."
  const ModerateStudy := "📖 Consider slightly reducing study hours or improving breaks."
  const ModerateScreen := "📵 Reducing screen time at night may improve recovery."
  const ModerateAdjust := "🔍 Small adjustments now can prevent burnout later."

  const HighRisk := "🚨 High burnout risk detected."
  const SevereSleep := "😴 Severe sleep deprivation detected."
  const Workload := "📚 Very high workload detected."
  const Rest := "🧠 Strongly recommend taking rest or reducing workload."

  /** `[tip]` when the condition holds, nothing otherwise. */
  function When(cond: bool, tip: string): (s: seq<string>)
    ensures |s| <= 1
    ensures |s| == 1 <==> cond
    ensures tip in s <==> cond
  {
    if cond then [tip] else []
  }

  /** The thirteen fixed tips, from all three branches. */
  const Tips: set<string> := {
    LowRisk, LowSleep, LowScreen, LowKeep,
    ModerateStrain, ModerateSleep, ModerateStudy, ModerateScreen, ModerateAdjust,
    HighRisk, SevereSleep, Workload, Rest }

  /** The advice as a concatenation of its segments: header, opening line,
      conditional tips in order, closing line. Every entry after the header is a fixed tip. */
  function AdviceFor(level: string, user: Raw): (a: seq<string>)
    ensures |a| >= 3 && a[0] == Header(level)
    ensures forall i :: 1 <= i < |a| ==> a[i] in Tips
  {
    [Header(level)] +
    if level == "Low" then
      [LowRisk] + When(user.sleepHours < 7.0, LowSleep) + When(user.screenTime > 6.0, LowScreen)
      + [LowKeep]
    else if level == "Moderate" then
      [ModerateStrain] + When(user.sleepHours < 6.0, ModerateSleep)
      + When(user.studyHours > 6.0, ModerateStudy) + When(user.screenTime > 6.0, ModerateScreen)
      + [ModerateAdjust]
    else
      [HighRisk] + When(user.sleepHours < 5.0, SevereSleep) + When(user.studyHours > 8.0, Workload)
      + [Rest]
  }

  /** Builds the list by appending, one tip at a time. */
  method BurnoutAdvice(level: string, user: Raw) returns (advice: seq<string>)
    ensures advice == AdviceFor(level, user)
  {
    advice := [];
    advice := advice + [Header(level)];
    if level == "Low" {
      advice := advice + [LowRisk];
      if user.sleepHours < 7.0 {
        advice := advice + [LowSleep];
      }
      if user.screenTime > 6.0 {
        advice := advice + [LowScreen];
      }
      advice := advice + [LowKeep];
    } else if level == "Moderate" {
      advice := advice + [ModerateStrain];
      if user.sleepHours < 6.0 {
        advice := advice + [ModerateSleep];
      }
      if user.studyHours > 6.0 {
        advice := advice + [ModerateStudy];
      }
      if user.screenTime > 6.0 {
        advice := advice + [ModerateScreen];
      }
      advice := advice + [ModerateAdjust];
    } else {
      advice := advice + [HighRisk];
      if user.sleepHours < 5.0 {
        advice := advice + [SevereSleep];
      }
      if user.studyHours > 8.0 {
        advice := advice + [Workload];
      }
      advice := advice + [Rest];
    }
  }

  /** The header comes first and the list holds three to six tips. */
  lemma AdviceHeaderAndLength(level: string, user: Raw)
    ensures var a := AdviceFor(level, user);
      3 <= |a| <= 6 && a[0] == Header(level)
  {
  }

  /** For "Low": the affirmation second, the balance reminder last, one optional tip each for
      short sleep and heavy screen time, and never a severe-sleep warning. */
  lemma LowAdvice(user: Raw)
    ensures var a := AdviceFor("Low", user);
      && a[1] == LowRisk
      && a[|a| - 1] == LowKeep
      && |a| == 3 + Count(user.sleepHours < 7.0) + Count(user.screenTime > 6.0)
      && (LowSleep in a <==> user.sleepHours < 7.0)
      && (LowScreen in a <==> user.screenTime > 6.0)
      && SevereSleep !in a
  {
  }

  lemma ModerateAdvice(user: Raw)
    ensures var a := AdviceFor("Moderate", user);
      && a[1] == ModerateStrain
      && a[|a| - 1] == ModerateAdjust
      && |a| == 3 + Count(user.sleepHours < 6.0) + Count(user.studyHours > 6.0)
                  + Count(user.screenTime > 6.0)
      && (ModerateSleep in a <==> user.sleepHours < 6.0)
      && (ModerateStudy in a <==> user.studyHours > 6.0)
      && (ModerateScreen in a <==> user.screenTime > 6.0)
      && SevereSleep !in a
  {
  }

  /** Every other label, "High" and "Very High" alike: the high-risk line second, the rest
      recommendation last, the sleep warning exactly when sleep is under 5 hours and the
      workload warning exactly when study is over 8 hours. */
  lemma HighAdvice(level: string, user: Raw)
    requires level != "Low" && level != "Moderate"
    ensures var a := AdviceFor(level, user);
      && a[1] == HighRisk
      && a[|a| - 1] == Rest
      && |a| == 3 + Count(user.sleepHours < 5.0) + Count(user.studyHours > 8.0)
      && (SevereSleep in a <==> user.sleepHours < 5.0)
      && (Workload in a <==> user.studyHours > 8.0)
  {
    assert Header(level)[0] == '🔥';
    assert SevereSleep[0] == '😴' && Workload[0] == '📚';
  }

  /** Two labels outside "Low" and "Moderate" give the same tips after the header. */
  lemma HighLabelsShareTips(l1: string, l2: string, user: Raw)
    requires l1 != "Low" && l1 != "Moderate" && l2 != "Low" && l2 != "Moderate"
    ensures AdviceFor(l1, user)[1..] == AdviceFor(l2, user)[1..]
  {
  }

  /** The tips read only sleep, study and screen time. */
  lemma AdviceReadsThreeFields(level: string, u1: Raw, u2: Raw)
    requires u1.sleepHours == u2.sleepHours && u1.studyHours == u2.studyHours
    requires u1.screenTime == u2.screenTime
    ensures AdviceFor(level, u1) == AdviceFor(level, u2)
  {
  }
}
