# Study Pattern Analyzer: the rule-based burnout pipeline

The Study Pattern Analyzer is a Streamlit form. It collects one day's self-reported study
habits: study time, sleep time, breaks, screen time, difficulty, revision and mood. From
these it derives secondary indices and asks two trained models for a performance score and a
burnout probability. It then rates burnout with a fixed rule, and prints advice.

This project models the rule-based part of that pipeline in Dafny:

- `record.dfy` (module `StudyRecord`): the raw daily record. It also gives the set of values the
  form's widgets can produce. Study and sleep are each entered as an hour box (up to 10) plus a
  minutes box (up to 50). So either one can reach 10 h 50 min.
- `features.dfy` (module `Features`): the derived indices. These are focus, fatigue, consistency,
  revision intensity, cognitive load and the productivity index. A division by zero, which raises
  an exception in Python, is returned as an error value.
- `sanitizer.dfy` (module `Sanitizer`): the clamp of the five fields the scorer reads.
- `scorer.dfy` (module `Scorer`): the five clipped, weighted penalties and their sum. It also
  rounds the sum to two decimals and maps it to a level (Low, Moderate, High, Very High).
- `advice.dfy` (module `Advice`): the tip list. It has two parts: a reference definition built
  from conditional segments, and the append-by-append generator, proved equal to it.
- `analysis.dfy` (module `Analysis`): one press of the analyze button. It clamps the
  classifier's probability, scores the sanitised record, picks the level and generates the
  advice. It also holds the lemmas that connect these steps.

Points where the code's behaviour is easy to misread:

- Study hours can reach 65/6 rather than 10, as noted above; the sanitiser brings them back to 10.
- The advice list starts with the "Burnout Level" header; the affirmation comes second.
- The consistency score is `min(study_hours, 6)`.
- The advice reads the record as entered, while the score reads the sanitised copy.
  `Analysis.AdviceUnaffectedBySanitising` proves this never changes the advice.

## Model

| member | source | states |
|---|---|---|
| StudyRecord.HoursFrom | app.py:51 | hours plus minutes/60 lies between h and h + 5/6, and is exactly (60h + m)/60 |
| StudyRecord.FromWidgets | app.py:196-204 | a record assembled from the widget values lies in the widget domain; study and sleep are exactly the entered hours plus minutes, at most 10 h 50 min; revision is 1 exactly when the box is ticked; breaks, break duration, screen time, difficulty and mood are the widget values unchanged |
| Sanitizer.VitalsOf | app.py:217-221 | the scorer's five fields are read from the full input record unchanged |
| Sanitizer.ClampReal | app.py:217-219 | `min(max(x, lo), hi)` lies in [lo, hi], is x when x is in range, lo below it and hi above it |
| Sanitizer.ClampInt | app.py:220-221 | the same for the integer fields |
| Sanitizer.ClampRealMonotone | app.py:217-219 | clamping preserves order |
| Sanitizer.ClampIntMonotone | app.py:220-221 | clamping preserves order on integers |
| Sanitizer.Sanitize | app.py:215-222 | every field of the result is in its closed range: study [0.5,10], sleep [1,10], screen [0,12], breaks [0,10], mood [1,5]; an in-range record is returned unchanged |
| Sanitizer.SanitizeKeepsInRangeFields | app.py:217-221 | each field is kept exactly when it already lies in its range |
| Sanitizer.SanitizeIdempotent | app.py:215-222 | sanitising twice equals sanitising once |
| Sanitizer.SanitizeFixedPoints | app.py:215-222 | a record is left unchanged exactly when it is in range |
| Features.Derive | app.py:182-194 | the features exist exactly when neither divisor (breaks + 1, sleep) is zero; focus times (breaks + 1) and fatigue times sleep give back the study time; consistency is the study time capped at 6; cognitive load is difficulty times study; the productivity index is 0.35 focus + 0.30 consistency + 0.20 revision - 0.15 fatigue |
| Features.FeaturesDefinedOnWidgetDomain | app.py:182-184 | on every widget-produced record no division fails; focus and fatigue lie in [0, study]; consistency lies in [0, 6] |
| Features.CognitiveLoadOnWidgetDomain | app.py:187 | on every widget-produced record the cognitive load lies in [study, 5 x study] |
| Features.RevisionAddsFixedBonus | app.py:185-194 | revising adds exactly 0.2 to the productivity index and leaves focus, fatigue, consistency and cognitive load unchanged |
| Features.WorkedExample | app.py:182-187 | study 4, sleep 7, 3 breaks, difficulty 3 give focus 1, fatigue 4/7, cognitive load 12 |
| Scorer.Clip | app.py:225-229 | `max(0, x)` is non-negative, at least x, and is either x or 0 |
| Scorer.SleepPenalty | app.py:225 | non-negative, zero exactly when sleep >= 7, otherwise the hours short of 7 |
| Scorer.StudyPenalty | app.py:226 | non-negative, zero exactly when study <= 3, otherwise the hours beyond 3 |
| Scorer.ScreenPenalty | app.py:227 | non-negative, zero exactly when screen time <= 3, otherwise the hours beyond 3 |
| Scorer.BreakPenalty | app.py:228 | non-negative, zero exactly when breaks <= 2, otherwise the breaks beyond 2 |
| Scorer.MoodPenalty | app.py:229 | non-negative, zero exactly when mood >= 4, otherwise the points below 4 |
| Scorer.RawBurnout | app.py:224-237 | the weighted penalty sum is non-negative, and zero exactly when sleep >= 7, study <= 3, screen <= 3, breaks <= 2 and mood >= 4 |
| Scorer.RawBurnoutMonotone | app.py:225-237 | the sum does not increase with sleep or mood and does not decrease with study, screen time or breaks |
| Scorer.ShortSleepExample | app.py:225-237 | 4 hours of sleep on an otherwise penalty-free day scores 0.7 x 3 = 2.1 |
| Scorer.RawBurnoutBoundedInRange | app.py:224-237 | on sanitised inputs the sum is at most 13.6 |
| Scorer.NearestHundredths | app.py:239 | the chosen number of hundredths is within half a hundredth of the value, and even on a tie |
| Scorer.RoundCents | app.py:239 | rounding to two decimals gives a whole number of hundredths within 0.005 of the value |
| Scorer.NearestHundredthsMonotone | app.py:239 | rounding to hundredths preserves order |
| Scorer.RoundCentsMonotone | app.py:239 | rounding to two decimals preserves order |
| Scorer.RoundCentsReaches | app.py:239 | against an even number of hundredths a tie rounds up: the rounded value reaches k/100 exactly when x >= (k - 0.5)/100 |
| Scorer.BurnoutScore | app.py:224-239 | the rounded score is non-negative, zero on a penalty-free day, and within 0.005 of the unrounded sum |
| Scorer.BurnoutScoreMonotone | app.py:224-239 | the rounded score keeps the monotonicity of the sum |
| Scorer.Label | app.py:303-310 | each level has its own label: "Low", "Moderate", "High" and "Very High", each exactly for its level |
| Scorer.LabelInjective | app.py:303-310 | distinct levels get distinct labels, so the header tells High from Very High |
| Scorer.Classify | app.py:303-310 | the level's rank is the number of thresholds 2.5, 5 and 7.5 the score reaches |
| Scorer.ClassifyBands | app.py:303-310 | the ladder is total and exclusive: Low below 2.5, Moderate on [2.5, 5), High on [5, 7.5), Very High from 7.5 |
| Scorer.ClassifyMonotone | app.py:303-310 | a higher score never gets a lower level in the order Low < Moderate < High < Very High |
| Advice.Header | app.py:245 | the header is the fixed prefix followed by the level label, which can be read back from it |
| Advice.AdviceFor | app.py:241-286 | at least three entries, the header first, and every later entry one of the thirteen fixed tips |
| Advice.When | app.py:251-255 | a conditional segment is the one tip when the condition holds and empty otherwise |
| Advice.BurnoutAdvice | app.py:241-286 | the list built by successive appends equals the segment-wise reference definition |
| Advice.AdviceHeaderAndLength | app.py:241-286 | the list starts with the "Burnout Level" header and has 3 to 6 entries |
| Advice.LowAdvice | app.py:248-257 | for "Low": affirmation second, balance reminder last, the sleep tip exactly when sleep < 7, the screen tip exactly when screen > 6, never the severe sleep warning |
| Advice.ModerateAdvice | app.py:260-272 | for "Moderate": strain line second, adjustment line last, the sleep, study and screen tips exactly when sleep < 6, study > 6, screen > 6 |
| Advice.HighAdvice | app.py:275-284 | for any other label: high-risk line second, rest recommendation last, the severe sleep warning exactly when sleep < 5, the workload warning exactly when study > 8 |
| Advice.HighLabelsShareTips | app.py:275-286 | "High", "Very High" and every other label outside Low and Moderate get the same tips after the header |
| Advice.AdviceReadsThreeFields | app.py:241-286 | the advice depends only on the label, sleep, study and screen time |
| Analysis.ClampProbability | app.py:296 | the displayed probability lies in [0.05, 0.95] and equals the model's value when that is already in range |
| Analysis.ClampProbabilityMonotone | app.py:296 | the clamp preserves order |
| Analysis.ClampProbabilityIdempotent | app.py:296 | clamping twice equals clamping once |
| Analysis.ScoreOf | app.py:299-300 | the score of the sanitised record lies in [0, 13.6] |
| Analysis.LevelOf | app.py:299-310 | the level's rank is the number of thresholds 2.495, 4.995 and 7.495 the unrounded penalty sum of the sanitised record reaches |
| Analysis.Analyze | app.py:290-321 | the probability is the clamped model output; the score is the rounded penalty sum of the sanitised record; the level is that score's rung on the ladder; the advice is generated from the record as entered for that level's label; probability in [0.05, 0.95], score in [0, 13.6], advice headed by the label with 3 to 6 entries |
| Analysis.SanitizeKeepsStrainOrder | app.py:215-222 | sanitising keeps the "no more strained than" order between two records |
| Analysis.LevelMonotone | app.py:299-310 | less sleep or worse mood, or more study, screen time or breaks, never lowers the score or the level |
| Analysis.RelaxedDayIsLow | app.py:299-320 | a penalty-free day scores 0, is rated Low and gets the low-risk affirmation without the severe sleep warning |
| Analysis.AdviceUnaffectedBySanitising | app.py:299-320 | advice from the record as entered equals advice from its sanitised values |
| Analysis.SevereSleepWarning | app.py:275-320 | a Low rating never carries the severe sleep warning; a High or Very High rating carries it exactly when the entered sleep is under 5 hours |

## Left out

- The Streamlit form, session-state syncing, captions, metrics and the summary (app.py:8-180,
  313-321). This is presentation; only the range of values the widgets allow is modelled.
- The split of a time into hours and 10-minute steps (app.py:28-29, 74-75). It depends on
  floating-point rounding and only seeds the widget defaults.
- Loading the two trained models and calling them (app.py:5-6, 292-295). These are calls into
  pickled models. The classifier's probability is a parameter of `Analysis.Analyze`. The
  performance prediction is not represented.
- The one-row DataFrame (app.py:213). It only wraps the input dictionary for the models. The derived
  features of `Features.Derive` feed only the models, so nothing else in the model reads them.
- Floating point in general. All hour arithmetic is on exact reals.
- Scorer.RoundCents: rounds the exact decimal value half-to-even. Python's `round(x, 2)` rounds
  the binary float, so a sum that should be a tie such as 2.495 may round the other way. A score
  within 0.005 of the thresholds 2.5, 5 and 7.5 can therefore get a different level in Python.
